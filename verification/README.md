# Stratège IA: guided workflow and credit bookkeeping

A Dafny model of the session logic of the "Stratège IA V2" Streamlit page
(`app_v2.py`). A user logs in by email against the `users` table and
receives a starting grant of credits. They then go through three paid steps
in order: the critique of a business idea ("Analyse"), three pivot
suggestions ("Pivots"), and an action plan ("GPS"). Between Pivots and GPS
sits a free "Valider" button. The sidebar can reset the project and save or
load it as JSON.

The model is functional. The `users` table is a `map<string, int>` from
normalised email to credits. The session is an immutable `State`. Every
button is a pure guarded transition:

- `email.dfy` (`Email`): `str(email).strip().lower()`.
- `accounts.dfy` (`Accounts`): the table, `login_user` and the arithmetic of `consume_credit`.
- `project.dfy` (`Projects`): the project record, its initial value, JSON export and import.
- `session.dfy` (`Session`): the state and one function per button.
- `runs.dfy` (`Runs`): button sequences, with the invariants kept over any sequence.

The language model's reply is a parameter, `Reply = Answered(text) | Raised`.
`Raised` stands for a call that throws; the handler then stops before it
writes anything. An empty reply still counts as answered: it is stored
and paid for, and the step stays "not done" because its field is empty.

Steps 2 and 3 have no `credits > 0` check in the source. Only the clamp in
`consume_credit` keeps a balance from going below zero there. At zero
credits those steps run without charge. `Runs.RunCharge` states this
exactly: the balance falls by one for each paid step that fires while
credits remain, and by nothing else.

## Model

| member | source | states |
|---|---|---|
| Email.SkipSpace | app_v2.py:44 | scanning right from a position stops at the first character that is not white space, having passed only white space |
| Email.SkipSpaceBack | app_v2.py:44 | scanning left stops just after the last character that is not white space, having passed only white space |
| Email.StripBounds | app_v2.py:44 | the kept part of `strip()` is a range with only white space before and after it, and neither end of the range is white space |
| Email.Strip | app_v2.py:44 | `strip()` returns the slice given by those bounds, which neither starts nor ends with white space |
| Email.LowerChar | app_v2.py:44 | lower-casing one character yields no upper-case letter, shifts an upper-case letter by 32 code points, leaves every other character alone, and never changes whether a character is white space |
| Email.Lower | app_v2.py:44 | `lower()` keeps the length and lower-cases each position independently |
| Email.Normalize | app_v2.py:44 | a normalised email has no white space at either end and no upper-case letter |
| Email.SkipSpaceUnique | app_v2.py:44 | the right scan's result is the only position that has only white space before it and a character that is not white space (or the end) at it |
| Email.SkipSpaceBackUnique | app_v2.py:44 | the left scan's result is the only position that has only white space after it and a character that is not white space (or the start bound) just before it |
| Email.StripPadded | app_v2.py:44 | `strip()` removes white space at the ends and nothing more: a string that does not start or end with white space, padded with white space on both sides, strips back to itself |
| Email.StripStripped | app_v2.py:44 | `strip()` leaves a string with no white space at either end unchanged |
| Email.LowerNoUpper | app_v2.py:44 | `lower()` leaves a string with no upper-case letter unchanged |
| Email.NormalizeIdempotent | app_v2.py:44 | normalising twice equals normalising once, so a normalised email is its own lookup key |
| Accounts.Debit | app_v2.py:53 | the new balance is never negative, is one less when the balance was positive, and is zero otherwise |
| Accounts.LoginUser | app_v2.py:43-49 | login looks up the normalised email; an existing row comes back with the table unchanged; otherwise exactly one row is added, with 2 credits; no existing row changes; the returned row matches the stored one |
| Accounts.LoginNoRegrant | app_v2.py:43-49 | a second login with an email that normalises to the same key changes nothing and returns the same row, so nobody gets the grant twice |
| Projects.Merge | app_v2.py:89 | `project.update(data)` overwrites exactly the keys present in `data` and keeps every other field |
| Projects.Export | app_v2.py:81 | saving writes every field of the project, and only those values, under `"data"` |
| Projects.Import | app_v2.py:88-89 | loading a file without `"data"` leaves the project unchanged; otherwise it merges the file's `"data"` object |
| Projects.ImportExport | app_v2.py:81-89 | loading a file that was saved from a project restores that project exactly, whatever the session held |
| Projects.ImportIdempotent | app_v2.py:88-89 | loading the same file twice has the same effect as loading it once |
| Session.Start | app_v2.py:38-40 | a new session has nobody logged in and a project of five empty strings with no choice |
| Session.Login | app_v2.py:102-106 | "Connexion" does something only while nobody is logged in; the session user then becomes the found or created row, whose balance matches the table; the project is untouched |
| Session.ConsumeCredit | app_v2.py:51-55 | without a user nothing changes; with one, the session balance clamps at zero and drops by exactly one when it was positive; the row of that email gets the same value; other rows and the project are untouched; an email with no row leaves the table unchanged |
| Session.Analyse | app_v2.py:113-127 | step 1 acts only when the analysis is empty, the idea non-empty, credits positive and the model answered; it then writes idea, context and analysis and takes exactly one credit, in the session and in that user's row; pivots, plan and choice, the set of rows and every other user's balance never change |
| Session.GeneratePivots | app_v2.py:130-141 | step 2 acts only when the analysis is non-empty, the pivots are empty and the model answered; it writes only the pivots and applies the clamped debit to the session and that user's row; there is no credit check; the set of rows and every other user's balance never change |
| Session.Validate | app_v2.py:130-135 | "Valider" acts only when analysis and pivots are both non-empty; it sets the choice to "Validé" and changes neither another field nor any credit |
| Session.GenerateGps | app_v2.py:143-154 | step 3 acts only when a non-empty choice is recorded, the plan is empty and the model answered; it writes only the plan and applies the clamped debit to the session and that user's row; there is no credit check; the set of rows and every other user's balance never change |
| Session.NewProject | app_v2.py:94-96 | "Nouveau Projet" restores the initial project and leaves the user and the table alone |
| Session.Load | app_v2.py:86-92 | "Confirmer le chargement" changes only the project, by importing the file |
| Runs.StartGood | app_v2.py:38-40 | a new session over a table with no negative balance satisfies the credit invariant |
| Runs.FreshSessionInert | app_v2.py:102-107 | before login, every button except "Connexion" leaves the session exactly as it is |
| Runs.ConsumeKeepsGood | app_v2.py:51-55 | `consume_credit` keeps every stored balance non-negative and keeps the session balance equal to the stored one |
| Runs.StepKeepsGood | app_v2.py:112-154 | every button keeps the credit invariant |
| Runs.RunKeepsGood | app_v2.py:112-154 | starting from a state where no stored balance is negative and the session balance equals the stored one, after any sequence of buttons credits are never negative, in the table or in the session |
| Runs.StepFramesTable | app_v2.py:51-55 | every button except "Connexion" keeps the set of rows and every balance other than the logged-in user's |
| Runs.StepCharge | app_v2.py:122-154 | with a user logged in whose balance is not negative, one button keeps that user and takes one credit exactly when a paid step fires while credits remain |
| Runs.RunCharge | app_v2.py:122-154 | with a user logged in whose balance is not negative, over any sequence, the balance falls by exactly the number of paid steps that fired while credits remained, and never by more than the starting balance |
| Runs.StepNoRowGrows | app_v2.py:43-55 | starting from a state where no stored balance is negative and the session balance equals the stored one, one button never raises a stored balance; any row it adds comes from login and holds the starting grant |
| Runs.RunNoRowGrows | app_v2.py:43-55 | starting from a state where no stored balance is negative and the session balance equals the stored one, over any sequence no row disappears and no stored balance grows |
| Runs.ExportKeepsOrder | app_v2.py:81-89 | loading a file saved from a project whose steps are in order keeps them in order |
| Runs.StepKeepsOrdered | app_v2.py:112-154 | each button other than an arbitrary file load fills pivots only after the analysis, the choice only after the pivots, and the plan only after the choice |
| Runs.LoadCanSkipSteps | app_v2.py:89 | loading an arbitrary file can produce a plan with no choice behind it |
| Runs.RunKeepsOrdered | app_v2.py:112-154 | over any sequence without arbitrary loads, the steps are filled in order |

## Left out

- The credit invariants (`Runs.RunKeepsGood`, `Runs.StepNoRowGrows`, `Runs.RunNoRowGrows`) assume that no stored balance starts negative. The table is external, and from a negative balance the clamp `max(0, credits - 1)` raises the balance to 0.
- Streamlit rendering, tabs, CSS, `st.rerun`, `time.sleep`, and the file uploader and download widgets: only the state changes behind the buttons are modelled.
- The Supabase client and the network: the table is an in-model map. Failed requests and concurrent sessions are not modelled. This includes two clicks that both debit the same row.
- Accounts.LoginUser: does not model the insert reply coming back empty, where `login_user` returns `None`; the model always gets the new row.
- The `access_code` column, filled by `uuid.uuid4()`: the application never reads it back.
- Email.Lower: maps only ASCII and Latin-1 capitals to lower case; the rest of Python's Unicode case mapping is not modelled.
- Prompts and the Gemini model: a reply is an arbitrary string, or a raised call.
- Projects.Import: JSON parsing is not modelled. Also left out: keys other than the six fields (`dict.update` would add them), values that are not strings, and a top-level value that is not an object.
- `generate_form_link` and its URL encoding: it builds a link and changes no state.
- `app.py`: a diagnostic page that lists configuration keys; it holds no workflow logic.
- The configuration block (`st.secrets`, client creation): it is I/O done once at start-up.
