/**
  The life of one recording row and everybody who writes to it: the calendar match, the leased resume
  of a transfer, the answers of the recruiter, the two interview routes, the non-interview route and
  the routing jobs (app/db/models/recording.py, app/services/status.py, app/scheduler/cron.py,
  app/routers/tools.py, app/services/reviews.py, app/services/routing_jobs.py,
  app/services/non_interview.py).

  A database session keeps its own copy of the row and writes only the columns it assigned, so a
  session that holds no lock can overwrite what others committed in the meantime. Every commit is one
  step. A column is represented by whether it holds a value that counts as set.
*/
module Pipeline {
  import opened Values

  datatype Status =
    | Found | EventFound | Matched | Manual
    | TransferStarted | Uploaded | Linked | CardUpdated | AwaitingEmail | SourceMarked | SourceDeleted
    | Completed | Ignored | Failed

  /** The transition table of the recording model. */
  function Transitions(from: Status): set<Status> {
    match from
    case Found => {EventFound, Manual, Ignored, Failed}
    case EventFound => {Matched, Manual, Failed}
    case Matched => {TransferStarted, Manual, Failed}
    case Manual => {EventFound, Matched, TransferStarted, Ignored, Failed}
    case TransferStarted => {Uploaded, Manual, Failed}
    case Uploaded => {Linked, Failed}
    case Linked => {CardUpdated, Completed, Failed}
    case CardUpdated => {AwaitingEmail, SourceMarked, Completed, Failed}
    case AwaitingEmail => {AwaitingEmail, SourceMarked, Completed, Failed}
    case SourceMarked => {SourceDeleted, Completed}
    case SourceDeleted => {Completed}
    case Completed => {}
    case Ignored => {}
    case Failed => {TransferStarted}
  }

  /** What a question about the recording lets the recruiter choose from. */
  datatype Choices = NoChoice | Events | Cards | Destinations

  datatype Fields = Fields(
    filename: bool, identity: bool, candidate: bool, page: bool, eventStart: bool,
    destination: bool, key: bool, path: bool, url: bool)

  datatype Row = Row(status: Status, version: nat, interview: bool, fields: Fields, choices: Choices)

  const RESUMABLE: set<Status> :=
    {EventFound, Matched, TransferStarted, Uploaded, Linked, CardUpdated, AwaitingEmail}

  /** From here on the transfer was promised. */
  predicate Committed(s: Status) {
    s in {TransferStarted, Uploaded, Linked, CardUpdated, AwaitingEmail, SourceMarked, SourceDeleted, Completed}
  }

  /** What the recovery of a committed transfer insists on. */
  predicate Complete(row: Row) {
    var f := row.fields;
    && f.filename && f.identity && (f.destination || f.key)
    && (row.interview ==> f.candidate && f.page)
  }

  /** The columns that an advance to a status assigns. */
  function Written(row: Row, to: Status): Row {
    match to
    case Manual => row.(status := Manual, choices := NoChoice)
    case Uploaded => row.(status := Uploaded, fields := row.fields.(path := true))
    case Linked => row.(status := Linked, fields := row.fields.(url := true))
    case _ => row.(status := to)
  }

  function ResetForRetry(f: Fields): Fields {
    f.(path := false, url := false)
  }

  /* ---- The leased resume ---- */

  /** How the outside calls before the next commit end: well, well with the source marked, with a
      question for the recruiter, with a lasting error, or with one that the next scan retries. */
  datatype Reply = Success | Marked | Ask(choices: Choices) | Broke | TryLater

  /** A session of the leased resume. `ownMatch` tells the run that matched the candidate itself. */
  datatype Session = Session(mem: Row, ownMatch: bool)

  datatype Provider = Synology | ObjectStore

  /** The commit after the candidate lookup, on a row locked since it was loaded. */
  function MatchCommit(row: Row, provider: Provider, reply: Reply): Row {
    var f := row.fields;
    if row.status.Matched? && !(f.page && f.candidate) then Written(row, Failed)
    else
      match reply
      case Success =>
        Row(Matched, if row.status.Matched? then row.version else row.version + 1, row.interview,
            f.(candidate := true, page := true, filename := true, identity := true,
               key := provider.ObjectStore?),
            row.choices)
      case Ask(choices) =>
        Written(row, Manual).(choices := if row.status.EventFound? && choices.Cards? then Cards else NoChoice)
      case Broke => if row.status.EventFound? then Written(row, Failed) else row
      case _ => row
  }

  /** Where the session goes from its own status; None ends it without a commit. */
  function NextStatus(s: Session, reply: Reply): Option<Status> {
    var f := s.mem.fields;
    match s.mem.status
    case Matched => Some(TransferStarted)
    case TransferStarted =>
      (match reply
       case Success => Some(Uploaded)
       case Ask(_) => Some(Manual)
       case Broke => Some(Failed)
       case _ => None)
    case Uploaded =>
      if !f.path || reply.Broke? then Some(Failed) else if reply.Success? then Some(Linked) else None
    case Linked =>
      if !s.mem.interview then Some(Completed)
      else if (!f.url && !s.ownMatch) || !f.eventStart || reply.Broke? then Some(Failed)
      else if reply.Success? then Some(CardUpdated) else None
    case CardUpdated => if s.ownMatch then Finishing(reply) else Some(AwaitingEmail)
    case AwaitingEmail => Finishing(reply)
    case SourceMarked => Some(Completed)
    case _ => None
  }

  function Finishing(reply: Reply): Option<Status> {
    match reply
    case Success => Some(Completed)
    case Marked => Some(SourceMarked)
    case Broke => Some(Failed)
    case _ => None
  }

  /** The branches that answer a committed state with missing columns. */
  predicate TakesRecoveryBranch(s: Session) {
    var f := s.mem.fields;
    || (Committed(s.mem.status) && !Complete(s.mem))
    || (s.mem.status.Uploaded? && !f.path)
    || (s.mem.status.Linked? && s.mem.interview && (!f.url || !f.eventStart))
  }

  /* ---- Everything around one row ---- */

  /** A question, with the version and the choices it was issued for. */
  datatype Question = Question(version: nat, choices: Choices)

  /** The second transaction of the non-interview route, which holds no lease: what it loaded, and how
      far it has come. */
  datatype Direct = Direct(at: Progress, status: Status, version: nat)

  datatype Progress = Loaded | Stored | Over

  datatype State = State(
    provider: Provider, row: Row, resume: Option<Session>, direct: seq<Direct>,
    questions: seq<Question>, jobs: seq<nat>)

  datatype Event =
    | MatchCalendar(matched: bool, choices: Choices)
    | MatchRefused                             // the matching signals are not configured
    | Resume(reply: Reply)                     // claim, load and first commit
    | Continue(reply: Reply)                   // next commit of the session
    | CutOff
    | Enqueue
    | Choose(question: nat, named: bool, identified: bool)
    | Ignore(question: nat)
    | RouteInterview(expected: nat)
    | RouteElsewhere(expected: nat)            // first transaction of the non-interview route
    | LoadDirect
    | StoreDirect(i: nat, ok: bool)
    | FinishDirect(i: nat, ok: bool)
    | CloseJob(i: nat, resolved: bool)
    | BumpVersion                              // an answer or summary that leaves the status alone

  function CalendarCommit(row: Row, matched: bool, choices: Choices): Row {
    if matched then row.(status := EventFound, fields := row.fields.(eventStart := true), choices := NoChoice)
    else
      row.(status := Manual, fields := row.fields.(eventStart := false),
           choices := if choices.Events? then Events else NoChoice)
  }

  function Ended(st: State): State {
    st.(resume := None)
  }

  /** The next commit of a session, over the row as it is now. */
  function SessionCommit(st: State, s: Session, reply: Reply): State {
    if s.mem.status.Matched? && st.provider.Synology? && !s.mem.fields.destination then
      // no destination yet: a routing job, or a question for the recruiter
      if reply.Success? then Ended(st).(jobs := st.jobs + [s.mem.version])
      else Ended(st).(row := Written(st.row, Manual))
    else
      match NextStatus(s, reply)
      case None => Ended(st)
      case Some(to) =>
        st.(row := Written(st.row, to),
            resume := if to in {Manual, Failed, Completed} then None else Some(Session(Written(s.mem, to), s.ownMatch)))
  }

  function ResumeCommit(st: State, reply: Reply): State {
    if st.resume.Some? || st.row.status !in RESUMABLE then st
    else if st.row.status in {EventFound, Matched} then
      var row := MatchCommit(st.row, st.provider, reply);
      st.(row := row, resume := if row.status.Matched? && reply.Success? then Some(Session(row, true)) else None)
    else if !Complete(st.row) then st.(row := Written(st.row, Failed))
    else SessionCommit(st, Session(st.row, false), reply)
  }

  /** The route decisions leave the choice of the candidate alone. */
  function Routed(row: Row): Row {
    row.(status := TransferStarted, version := row.version + 1,
         fields := row.fields.(destination := true, key := false, identity := true))
  }

  predicate MayRouteInterview(row: Row, expected: nat) {
    && row.version == expected && row.interview
    && row.status in {Matched, Manual, Failed}
    && row.fields.filename && row.fields.candidate && row.fields.page
  }

  function InterviewRouted(row: Row): Row {
    Routed(if row.status.Failed? then row.(fields := ResetForRetry(row.fields)) else row)
  }

  predicate MayRouteElsewhere(row: Row, expected: nat) {
    row.version == expected && (row.status.Manual? || (row.status.Failed? && !row.interview))
  }

  function ElsewhereRouted(row: Row): Row {
    var f := if row.status.Failed? then ResetForRetry(row.fields) else row.fields;
    row.(status := TransferStarted, version := row.version + 1, interview := false,
         fields := f.(filename := true, identity := true, destination := true, key := true))
  }

  /** What the accepted answer to a question does; an answer that no transition allows raises. */
  function Chosen(row: Row, choices: Choices, named: bool, identified: bool): Row {
    match choices
    case NoChoice => row
    case Events =>
      row.(status := EventFound, version := row.version + 1, fields := row.fields.(eventStart := true))
    case Cards =>
      row.(status := Matched, version := row.version + 1,
           fields := row.fields.(candidate := named, page := identified))
    case Destinations => Routed(row)
  }

  function Answered(st: State, q: Question, row: Row): State {
    if st.row.version == q.version && st.row.status.Manual? then st.(row := row) else st
  }

  function StoreDirectStep(st: State, i: nat, ok: bool): State {
    if i >= |st.direct| then st
    else
      var d := st.direct[i];
      if !d.at.Loaded? then st
      else if !ok || !d.status.TransferStarted? then st.(direct := st.direct[i := d.(at := Over)])
      else st.(row := Written(st.row, Uploaded), direct := st.direct[i := d.(at := Stored)])
  }

  /** The last commit writes the link, the status and the version that the session had loaded plus one. */
  function Finished(row: Row, d: Direct): Row {
    Written(Written(row, Linked), Completed).(version := d.version + 1)
  }

  function FinishDirectStep(st: State, i: nat, ok: bool): State {
    if i >= |st.direct| || !st.direct[i].at.Stored? then st
    else
      var over := st.(direct := st.direct[i := st.direct[i].(at := Over)]);
      if ok then over.(row := Finished(st.row, st.direct[i])) else over
  }

  function CloseJobStep(st: State, i: nat, resolved: bool): State {
    if i >= |st.jobs| || st.row.version != st.jobs[i] || !st.row.status.Matched? then st
    else if resolved then st.(row := Routed(st.row))
    else st.(row := st.row.(status := Manual, version := st.row.version + 1, choices := Destinations))
  }

  function Step(st: State, e: Event): State {
    match e
    case MatchCalendar(matched, choices) =>
      if st.row.status.Found? && st.resume.None? then st.(row := CalendarCommit(st.row, matched, choices)) else st
    case MatchRefused =>
      if st.row.status.Found? && st.resume.None? then st.(row := Written(st.row, Failed)) else st
    case Resume(reply) => ResumeCommit(st, reply)
    case Continue(reply) => if st.resume.Some? then SessionCommit(st, st.resume.value, reply) else st
    case CutOff => Ended(st)
    case Enqueue =>
      if st.row.status.Manual? then st.(questions := st.questions + [Question(st.row.version, st.row.choices)])
      else st
    case Choose(i, named, identified) =>
      if i < |st.questions|
      then Answered(st, st.questions[i], Chosen(st.row, st.questions[i].choices, named, identified))
      else st
    case Ignore(i) =>
      if i < |st.questions|
      then Answered(st, st.questions[i], st.row.(status := Ignored, version := st.row.version + 1))
      else st
    case RouteInterview(expected) =>
      if MayRouteInterview(st.row, expected) then st.(row := InterviewRouted(st.row)) else st
    case RouteElsewhere(expected) =>
      if MayRouteElsewhere(st.row, expected) then st.(row := ElsewhereRouted(st.row)) else st
    case LoadDirect =>
      if st.row.interview then st
      else st.(direct := st.direct + [Direct(Loaded, st.row.status, st.row.version)])
    case StoreDirect(i, ok) => StoreDirectStep(st, i, ok)
    case FinishDirect(i, ok) => FinishDirectStep(st, i, ok)
    case CloseJob(i, resolved) => CloseJobStep(st, i, resolved)
    case BumpVersion => st.(row := st.row.(version := st.row.version + 1))
  }

  function Run(st: State, events: seq<Event>): State
    decreases |events|
  {
    if events == [] then st else Run(Step(st, events[0]), events[1..])
  }

  /** A recording that a scan has just found. */
  predicate Initial(st: State) {
    && st.row.status.Found? && st.row.version == 0 && st.row.interview
    && st.row.fields == Fields(false, false, false, false, false, false, false, false, false)
    && st.resume.None? && st.direct == [] && st.questions == [] && st.jobs == []
  }

  /* ---- The invariant ---- */

  /** The candidate is settled, so that only the place is open. */
  predicate Ready(row: Row) {
    row.fields.filename && row.fields.candidate && row.fields.page
  }

  predicate RowInv(row: Row, provider: Provider) {
    var f := row.fields;
    && (row.status in {Found, EventFound, Matched} ==> row.interview && (provider.Synology? ==> !f.destination))
    && (row.status.Found? ==> !f.filename)
    && (row.status in {EventFound, Matched} ==> f.eventStart)
    && (row.interview && f.filename ==> f.eventStart)
    && (Committed(row.status) || !row.interview ==> Complete(row))
    && (AtPlace(row.status) ==> f.path)
    && (Shared(row.status) ==> f.url)
  }

  predicate AtPlace(s: Status) {
    s.Uploaded? || Shared(s)
  }

  predicate Shared(s: Status) {
    s in {Linked, CardUpdated, AwaitingEmail, SourceMarked}
  }

  /** While a resume runs, nobody fails or resets the row, and the session's copy is not ahead of it. */
  predicate ResumeInv(row: Row, m: Row, provider: Provider) {
    && !row.status.Failed? && !row.status.Found?
    && (m.status in {Matched, TransferStarted} || AtPlace(m.status))
    && (m.status.Matched? ==> WaitsForPlace(row, m, provider))
    && (m.interview && m.fields.filename ==> m.fields.eventStart)
    && (Committed(m.status) ==> Committed(row.status) && Complete(m))
    && (AtPlace(m.status) ==> m.fields.path && row.fields.path)
    && (Shared(m.status) ==> m.fields.url && row.fields.url)
    && JobInv(row, m.version)
  }

  predicate WaitsForPlace(row: Row, m: Row, provider: Provider) {
    && Ready(m) && m.interview && m.fields.identity
    && match provider
       case Synology => !m.fields.destination
       case ObjectStore =>
         m.fields.key && row.interview && row.status in {Matched, TransferStarted} && Complete(row)
  }

  /** A routing job can only close on a row whose candidate is settled. */
  predicate JobInv(row: Row, version: nat) {
    && (row.interview ==> version <= row.version)
    && (row.status.Matched? && row.version == version ==> Ready(row))
  }

  predicate JobsInv(row: Row, jobs: seq<nat>) {
    forall i :: 0 <= i < |jobs| ==> JobInv(row, jobs[i])
  }

  predicate QuestionInv(row: Row, direct: seq<Direct>, provider: Provider, q: Question) {
    && (row.interview ==> q.version <= row.version)
    && (row.interview && q.version == row.version ==> row.status.Manual?)
    && (q.choices != NoChoice && q.version == row.version ==> row.interview && Answerable(row, provider, q.choices))
    && (q.choices != NoChoice && !row.interview ==>
          q.version < row.version && forall i :: 0 <= i < |direct| ==> q.version < direct[i].version)
  }

  predicate QuestionsInv(row: Row, direct: seq<Direct>, provider: Provider, questions: seq<Question>) {
    forall i :: 0 <= i < |questions| ==> QuestionInv(row, direct, provider, questions[i])
  }

  /** What a question of this kind was asked about. */
  predicate Answerable(row: Row, provider: Provider, choices: Choices) {
    && (choices in {Events, Cards} && provider.Synology? ==> !row.fields.destination)
    && (choices.Cards? ==> row.fields.eventStart)
    && (choices.Destinations? ==> Ready(row))
  }

  predicate SessionInv(row: Row, resume: Option<Session>, provider: Provider) {
    resume.Some? ==>
      && ResumeInv(row, resume.value.mem, provider)
      && (provider.Synology? && resume.value.ownMatch ==> resume.value.mem.status.Matched?)
  }

  /** What the next question will offer can still be answered. */
  predicate OfferInv(row: Row, provider: Provider) {
    row.status.Manual? && row.choices != NoChoice ==> row.interview && Answerable(row, provider, row.choices)
  }

  predicate Inv(st: State) {
    && RowInv(st.row, st.provider) && OfferInv(st.row, st.provider)
    && SessionInv(st.row, st.resume, st.provider)
    && JobsInv(st.row, st.jobs)
    && QuestionsInv(st.row, st.direct, st.provider, st.questions)
    && (st.row.interview ==> st.direct == [])
    && (st.provider.ObjectStore? ==> st.jobs == [])
  }

  /** What a session writes on the way, the row has as much as its own copy. */
  lemma WriteKeepsRowInv(row: Row, m: Row, provider: Provider, to: Status)
    requires RowInv(row, provider) && ResumeInv(row, m, provider)
    requires to in Transitions(m.status) - {Manual, Failed, Completed, SourceDeleted}
    requires m.status.Matched? ==> provider.ObjectStore?
    ensures RowInv(Written(row, to), provider)
  {
    assert Complete(row);
    match to
    case TransferStarted =>
    case Uploaded =>
    case Linked =>
    case CardUpdated =>
    case AwaitingEmail =>
    case SourceMarked =>
    case _ =>
  }

  /** The session goes on from what it wrote. */
  lemma WriteKeepsResumeInv(row: Row, m: Row, provider: Provider, to: Status)
    requires RowInv(row, provider) && ResumeInv(row, m, provider)
    requires to in Transitions(m.status) - {Manual, Failed, Completed, SourceDeleted}
    requires m.status.Matched? ==> provider.ObjectStore?
    ensures ResumeInv(Written(row, to), Written(m, to), provider)
  {
    assert Complete(m);
    match to
    case TransferStarted =>
    case Uploaded =>
    case Linked =>
    case CardUpdated =>
    case AwaitingEmail =>
    case SourceMarked =>
    case _ =>
  }

  /** The session ends with what it wrote. */
  lemma LastWriteKeepsRowInv(row: Row, m: Row, provider: Provider, to: Status)
    requires RowInv(row, provider) && ResumeInv(row, m, provider) && to in {Manual, Failed, Completed}
    requires to.Completed? ==> Committed(m.status)
    ensures RowInv(Written(row, to), provider)
  {
  }

  /** Jobs and questions do not mind a write that keeps the version. */
  lemma WriteKeepsOthersInv(row: Row, direct: seq<Direct>, provider: Provider, questions: seq<Question>,
                            jobs: seq<nat>, to: Status)
    requires JobsInv(row, jobs) && QuestionsInv(row, direct, provider, questions)
    requires to !in {Found, EventFound, Matched} && (to.Manual? || !row.interview || !row.status.Manual?)
    ensures JobsInv(Written(row, to), jobs) && QuestionsInv(Written(row, to), direct, provider, questions)
  {
    forall i | 0 <= i < |jobs|
      ensures JobInv(Written(row, to), jobs[i])
    {
      assert JobInv(row, jobs[i]);
    }
    forall i | 0 <= i < |questions|
      ensures QuestionInv(Written(row, to), direct, provider, questions[i])
    {
      assert QuestionInv(row, direct, provider, questions[i]);
    }
  }

  /** A new version leaves every job and question behind. */
  lemma NewVersionKeepsOthersInv(row: Row, later: Row, direct: seq<Direct>, provider: Provider,
                                 questions: seq<Question>, jobs: seq<nat>)
    requires JobsInv(row, jobs) && QuestionsInv(row, direct, provider, questions)
    requires row.interview ==> direct == []
    requires later.version > row.version && (later.interview || later.status.Matched? ==> row.interview)
    ensures JobsInv(later, jobs) && QuestionsInv(later, direct, provider, questions)
  {
    forall i | 0 <= i < |jobs|
      ensures JobInv(later, jobs[i])
    {
      assert JobInv(row, jobs[i]);
    }
    forall i | 0 <= i < |questions|
      ensures QuestionInv(later, direct, provider, questions[i])
    {
      assert QuestionInv(row, direct, provider, questions[i]);
    }
  }

  /** An interview outside manual review has no current question to mind a write. */
  lemma UnaskedKeepsOthersInv(row: Row, later: Row, provider: Provider, questions: seq<Question>, jobs: seq<nat>)
    requires JobsInv(row, jobs) && QuestionsInv(row, [], provider, questions)
    requires row.interview && later.interview && !row.status.Manual? && later.version >= row.version
    requires later.status.Matched? ==> Ready(later)
    ensures JobsInv(later, jobs) && QuestionsInv(later, [], provider, questions)
  {
    forall i | 0 <= i < |jobs|
      ensures JobInv(later, jobs[i])
    {
      assert JobInv(row, jobs[i]);
    }
    forall i | 0 <= i < |questions|
      ensures QuestionInv(later, [], provider, questions[i])
    {
      assert QuestionInv(row, [], provider, questions[i]);
    }
  }

  lemma NextStatusIsLegal(s: Session, reply: Reply)
    ensures NextStatus(s, reply).Some? ==>
              NextStatus(s, reply).value in Transitions(s.mem.status) - {SourceDeleted}
  {
  }

  lemma WaitingSessionKeepsInv(st: State, s: Session, reply: Reply)
    requires Inv(st) && ResumeInv(st.row, s.mem, st.provider) && s.mem.status.Matched? && st.provider.Synology?
    ensures Inv(SessionCommit(st, s, reply))
  {
    WriteKeepsOthersInv(st.row, st.direct, st.provider, st.questions, st.jobs, Manual);
    var jobs := st.jobs + [s.mem.version];
    forall i | 0 <= i < |jobs|
      ensures JobInv(st.row, jobs[i])
    {
      assert i < |st.jobs| ==> JobInv(st.row, st.jobs[i]);
    }
  }

  lemma LastCommitKeepsInv(st: State, s: Session, to: Status)
    requires Inv(st) && ResumeInv(st.row, s.mem, st.provider) && to in {Manual, Failed, Completed}
    requires !st.row.status.Manual? && (to.Completed? ==> Committed(s.mem.status))
    ensures Inv(Ended(st).(row := Written(st.row, to)))
  {
    WriteKeepsOthersInv(st.row, st.direct, st.provider, st.questions, st.jobs, to);
    LastWriteKeepsRowInv(st.row, s.mem, st.provider, to);
  }

  lemma NextCommitKeepsInv(st: State, s: Session, to: Status)
    requires Inv(st) && ResumeInv(st.row, s.mem, st.provider) && !st.row.status.Manual?
    requires to in Transitions(s.mem.status) - {Manual, Failed, Completed, SourceDeleted}
    requires s.mem.status.Matched? ==> st.provider.ObjectStore?
    requires st.provider.Synology? ==> !s.ownMatch
    ensures Inv(st.(row := Written(st.row, to), resume := Some(Session(Written(s.mem, to), s.ownMatch))))
  {
    WriteKeepsOthersInv(st.row, st.direct, st.provider, st.questions, st.jobs, to);
    WriteKeepsRowInv(st.row, s.mem, st.provider, to);
    WriteKeepsResumeInv(st.row, s.mem, st.provider, to);
  }

  /** A session that has no question to ask finds the row outside manual review. */
  lemma CommitsOutsideReview(row: Row, m: Row, provider: Provider)
    requires ResumeInv(row, m, provider) && (m.status.Matched? ==> provider.ObjectStore?)
    ensures !row.status.Manual?
  {
  }

  lemma SessionKeepsInv(st: State, s: Session, reply: Reply)
    requires Inv(st) && ResumeInv(st.row, s.mem, st.provider)
    requires st.provider.Synology? && s.ownMatch ==> s.mem.status.Matched?
    ensures Inv(SessionCommit(st, s, reply))
  {
    if s.mem.status.Matched? && st.provider.Synology? {
      WaitingSessionKeepsInv(st, s, reply);
    } else if NextStatus(s, reply).Some? {
      var to := NextStatus(s, reply).value;
      NextStatusIsLegal(s, reply);
      CommitsOutsideReview(st.row, s.mem, st.provider);
      if to in {Manual, Failed, Completed} {
        LastCommitKeepsInv(st, s, to);
      } else {
        NextCommitKeepsInv(st, s, to);
      }
    }
  }

  lemma MatchKeepsRowInv(row: Row, provider: Provider, reply: Reply)
    requires RowInv(row, provider) && row.status in {EventFound, Matched}
    ensures var later := MatchCommit(row, provider, reply);
            && RowInv(later, provider) && OfferInv(later, provider) && later.interview
            && later.version >= row.version && (later.status.Matched? && later != row ==> Ready(later))
            && (later.status.Matched? && reply.Success? ==> ResumeInv(later, later, provider))
  {
  }

  /** The claim, the candidate lookup and their commit. */
  lemma MatchingResumeKeepsInv(st: State, reply: Reply)
    requires Inv(st) && st.resume.None? && st.row.status in {EventFound, Matched}
    ensures Inv(ResumeCommit(st, reply))
  {
    var later := MatchCommit(st.row, st.provider, reply);
    MatchKeepsRowInv(st.row, st.provider, reply);
    if later != st.row {
      UnaskedKeepsOthersInv(st.row, later, st.provider, st.questions, st.jobs);
    }
  }

  lemma CommittedRowIsOwnCopy(row: Row, provider: Provider)
    requires RowInv(row, provider) && Committed(row.status) && row.status in RESUMABLE
    ensures ResumeInv(row, row, provider)
  {
  }

  lemma ResumeKeepsInv(st: State, reply: Reply)
    requires Inv(st)
    ensures Inv(ResumeCommit(st, reply))
  {
    if st.resume.None? && st.row.status in RESUMABLE {
      if st.row.status in {EventFound, Matched} {
        MatchingResumeKeepsInv(st, reply);
      } else {
        CommittedRowIsOwnCopy(st.row, st.provider);
        SessionKeepsInv(st, Session(st.row, false), reply);
      }
    }
  }

  lemma CalendarKeepsInv(st: State, row: Row, matched: bool, choices: Choices)
    requires Inv(st) && st.row.status.Found? && st.resume.None?
    requires row == CalendarCommit(st.row, matched, choices) || row == Written(st.row, Failed)
    ensures Inv(st.(row := row))
  {
    UnaskedKeepsOthersInv(st.row, row, st.provider, st.questions, st.jobs);
  }

  lemma EnqueueKeepsInv(st: State)
    requires Inv(st) && st.row.status.Manual?
    ensures Inv(st.(questions := st.questions + [Question(st.row.version, st.row.choices)]))
  {
    var questions := st.questions + [Question(st.row.version, st.row.choices)];
    forall i | 0 <= i < |questions|
      ensures QuestionInv(st.row, st.direct, st.provider, questions[i])
    {
      assert i < |st.questions| ==> QuestionInv(st.row, st.direct, st.provider, st.questions[i]);
    }
  }

  lemma ChosenKeepsRowInv(row: Row, provider: Provider, choices: Choices, named: bool, identified: bool)
    requires RowInv(row, provider) && row.status.Manual? && row.interview && Answerable(row, provider, choices)
    requires choices != NoChoice
    ensures RowInv(Chosen(row, choices, named, identified), provider)
  {
  }

  lemma ChosenKeepsResumeInv(row: Row, m: Row, provider: Provider, choices: Choices, named: bool, identified: bool)
    requires ResumeInv(row, m, provider) && row.status.Manual? && row.interview && choices != NoChoice
    ensures ResumeInv(Chosen(row, choices, named, identified), m, provider)
  {
  }

  lemma ChooseKeepsInv(st: State, q: Question, named: bool, identified: bool)
    requires Inv(st) && QuestionInv(st.row, st.direct, st.provider, q)
    ensures Inv(Answered(st, q, Chosen(st.row, q.choices, named, identified)))
  {
    if st.row.version == q.version && st.row.status.Manual? && q.choices != NoChoice {
      var row := Chosen(st.row, q.choices, named, identified);
      NewVersionKeepsOthersInv(st.row, row, st.direct, st.provider, st.questions, st.jobs);
      ChosenKeepsRowInv(st.row, st.provider, q.choices, named, identified);
      if st.resume.Some? {
        ChosenKeepsResumeInv(st.row, st.resume.value.mem, st.provider, q.choices, named, identified);
      }
    }
  }

  /** Whatever takes a row that nobody resumes, or only its version, to a new version. */
  lemma NewVersionKeepsInv(st: State, row: Row)
    requires Inv(st) && row.version > st.row.version && (row.interview || row.status.Matched? ==> st.row.interview)
    requires RowInv(row, st.provider) && OfferInv(row, st.provider) && SessionInv(row, st.resume, st.provider)
    ensures Inv(st.(row := row))
  {
    NewVersionKeepsOthersInv(st.row, row, st.direct, st.provider, st.questions, st.jobs);
  }

  lemma IgnoreKeepsInv(st: State)
    requires Inv(st) && st.row.status.Manual?
    ensures Inv(st.(row := st.row.(status := Ignored, version := st.row.version + 1)))
  {
    NewVersionKeepsInv(st, st.row.(status := Ignored, version := st.row.version + 1));
  }

  lemma BumpKeepsInv(st: State)
    requires Inv(st)
    ensures Inv(st.(row := st.row.(version := st.row.version + 1)))
  {
    NewVersionKeepsInv(st, st.row.(version := st.row.version + 1));
  }

  lemma RouteInterviewKeepsInv(st: State, expected: nat)
    requires Inv(st) && MayRouteInterview(st.row, expected)
    ensures Inv(st.(row := InterviewRouted(st.row)))
  {
    NewVersionKeepsInv(st, InterviewRouted(st.row));
  }

  lemma RouteElsewhereKeepsInv(st: State, expected: nat)
    requires Inv(st) && MayRouteElsewhere(st.row, expected)
    ensures Inv(st.(row := ElsewhereRouted(st.row)))
  {
    NewVersionKeepsInv(st, ElsewhereRouted(st.row));
  }

  lemma CloseJobKeepsInv(st: State, i: nat, resolved: bool)
    requires Inv(st)
    ensures Inv(CloseJobStep(st, i, resolved))
  {
    if CloseJobStep(st, i, resolved) != st {
      assert JobInv(st.row, st.jobs[i]);
      NewVersionKeepsInv(st, CloseJobStep(st, i, resolved).row);
    }
  }

  /** No question that offers a choice is as new as a session of the unleased route. */
  lemma LoadDirectKeepsInv(st: State)
    requires Inv(st) && !st.row.interview
    ensures Inv(st.(direct := st.direct + [Direct(Loaded, st.row.status, st.row.version)]))
  {
    var direct := st.direct + [Direct(Loaded, st.row.status, st.row.version)];
    forall i | 0 <= i < |st.questions|
      ensures QuestionInv(st.row, direct, st.provider, st.questions[i])
    {
      assert QuestionInv(st.row, st.direct, st.provider, st.questions[i]);
    }
  }

  lemma ProgressKeepsQuestionsInv(row: Row, direct: seq<Direct>, provider: Provider, questions: seq<Question>,
                                  i: nat, d: Direct)
    requires QuestionsInv(row, direct, provider, questions) && i < |direct| && d.version == direct[i].version
    ensures QuestionsInv(row, direct[i := d], provider, questions)
  {
    forall k | 0 <= k < |questions|
      ensures QuestionInv(row, direct[i := d], provider, questions[k])
    {
      assert QuestionInv(row, direct, provider, questions[k]);
    }
  }

  lemma ProgressKeepsInv(st: State, i: nat, d: Direct)
    requires Inv(st) && i < |st.direct| && d.version == st.direct[i].version
    ensures Inv(st.(direct := st.direct[i := d]))
  {
    ProgressKeepsQuestionsInv(st.row, st.direct, st.provider, st.questions, i, d);
  }

  /** The upload of the unleased route, over whatever the row has become. */
  lemma StoredUploadKeepsInv(st: State)
    requires Inv(st) && !st.row.interview
    ensures Inv(st.(row := Written(st.row, Uploaded)))
  {
    WriteKeepsOthersInv(st.row, st.direct, st.provider, st.questions, st.jobs, Uploaded);
  }

  lemma StoreDirectKeepsInv(st: State, i: nat, ok: bool)
    requires Inv(st)
    ensures Inv(StoreDirectStep(st, i, ok))
  {
    if i < |st.direct| && st.direct[i].at.Loaded? {
      var d := st.direct[i].(at := if ok && st.direct[i].status.TransferStarted? then Stored else Over);
      ProgressKeepsInv(st, i, d);
      if d.at.Stored? {
        StoredUploadKeepsInv(st.(direct := st.direct[i := d]));
      }
    }
  }

  /** The last commit of the unleased route is newer than every question that offers a choice. */
  lemma FinishedKeepsInv(st: State, i: nat)
    requires Inv(st) && i < |st.direct|
    ensures Inv(st.(row := Finished(st.row, st.direct[i])))
  {
    var row := Finished(st.row, st.direct[i]);
    forall k | 0 <= k < |st.questions|
      ensures QuestionInv(row, st.direct, st.provider, st.questions[k])
    {
      assert QuestionInv(st.row, st.direct, st.provider, st.questions[k]);
    }
  }

  lemma FinishDirectKeepsInv(st: State, i: nat, ok: bool)
    requires Inv(st)
    ensures Inv(FinishDirectStep(st, i, ok))
  {
    if i < |st.direct| && st.direct[i].at.Stored? {
      var over := st.direct[i].(at := Over);
      ProgressKeepsInv(st, i, over);
      FinishedKeepsInv(st.(direct := st.direct[i := over]), i);
    }
  }

  lemma CronKeepsInv(st: State, e: Event)
    requires Inv(st) && (e.MatchCalendar? || e.MatchRefused? || e.Resume? || e.Continue? || e.CutOff?)
    ensures Inv(Step(st, e))
  {
    match e
    case MatchCalendar(matched, choices) =>
      if st.row.status.Found? && st.resume.None? {
        CalendarKeepsInv(st, CalendarCommit(st.row, matched, choices), matched, choices);
      }
    case MatchRefused =>
      if st.row.status.Found? && st.resume.None? {
        CalendarKeepsInv(st, Written(st.row, Failed), false, NoChoice);
      }
    case Resume(reply) => ResumeKeepsInv(st, reply);
    case Continue(reply) =>
      if st.resume.Some? {
        SessionKeepsInv(st, st.resume.value, reply);
      }
    case CutOff =>
  }

  lemma ReviewKeepsInv(st: State, e: Event)
    requires Inv(st) && (e.Enqueue? || e.Choose? || e.Ignore? || e.BumpVersion?)
    ensures Inv(Step(st, e))
  {
    match e
    case Enqueue =>
      if st.row.status.Manual? {
        EnqueueKeepsInv(st);
      }
    case Choose(i, named, identified) =>
      if i < |st.questions| {
        ChooseKeepsInv(st, st.questions[i], named, identified);
      }
    case Ignore(i) =>
      if i < |st.questions| && st.row.status.Manual? {
        IgnoreKeepsInv(st);
      }
    case BumpVersion => BumpKeepsInv(st);
  }

  lemma RouteKeepsInv(st: State, e: Event)
    requires Inv(st) && (e.RouteInterview? || e.RouteElsewhere? || e.CloseJob?)
    ensures Inv(Step(st, e))
  {
    match e
    case RouteInterview(expected) =>
      if MayRouteInterview(st.row, expected) {
        RouteInterviewKeepsInv(st, expected);
      }
    case RouteElsewhere(expected) =>
      if MayRouteElsewhere(st.row, expected) {
        RouteElsewhereKeepsInv(st, expected);
      }
    case CloseJob(i, resolved) => CloseJobKeepsInv(st, i, resolved);
  }

  lemma DirectKeepsInv(st: State, e: Event)
    requires Inv(st) && (e.LoadDirect? || e.StoreDirect? || e.FinishDirect?)
    ensures Inv(Step(st, e))
  {
    match e
    case LoadDirect =>
      if !st.row.interview {
        LoadDirectKeepsInv(st);
      }
    case StoreDirect(i, ok) => StoreDirectKeepsInv(st, i, ok);
    case FinishDirect(i, ok) => FinishDirectKeepsInv(st, i, ok);
  }

  lemma StepKeepsInv(st: State, e: Event)
    requires Inv(st)
    ensures Inv(Step(st, e))
  {
    if e.LoadDirect? || e.StoreDirect? || e.FinishDirect? {
      DirectKeepsInv(st, e);
    } else if e.RouteInterview? || e.RouteElsewhere? || e.CloseJob? {
      RouteKeepsInv(st, e);
    } else if e.Enqueue? || e.Choose? || e.Ignore? || e.BumpVersion? {
      ReviewKeepsInv(st, e);
    } else {
      CronKeepsInv(st, e);
    }
  }

  lemma {:induction false} RunKeepsInv(st: State, events: seq<Event>)
    requires Inv(st)
    ensures Inv(Run(st, events))
    decreases |events|
  {
    if events != [] {
      StepKeepsInv(st, events[0]);
      RunKeepsInv(Step(st, events[0]), events[1..]);
    }
  }

  /* ---- What every run guarantees ---- */

  /** Whoever writes, and in whatever order: a promised transfer is complete, an upload has its path,
      a shared file its path and its link. */
  lemma CommittedStatesAreComplete(st: State, events: seq<Event>)
    requires Initial(st)
    ensures var row := Run(st, events).row;
            && (Committed(row.status) ==> Complete(row) && (row.interview ==> row.fields.eventStart))
            && (AtPlace(row.status) ==> row.fields.path)
            && (Shared(row.status) ==> row.fields.url)
  {
    RunKeepsInv(st, events);
  }

  /** So the recovery of a committed transfer never meets the states its error branches are for,
      neither when it loads the row nor between its own commits. */
  lemma RecoveryBranchesAreDead(st: State, events: seq<Event>, ownMatch: bool)
    requires Initial(st)
    ensures var end := Run(st, events);
            && !TakesRecoveryBranch(Session(end.row, ownMatch))
            && (end.resume.Some? ==> !TakesRecoveryBranch(end.resume.value))
  {
    RunKeepsInv(st, events);
  }

  /** With a Synology store the run that matches the candidate never uploads by itself: it always ends
      with a routing job or a question. */
  lemma MatchingRunNeverUploadsToSynology(st: State, events: seq<Event>)
    requires Initial(st) && st.provider.Synology?
    ensures var end := Run(st, events);
            end.resume.Some? && end.resume.value.ownMatch ==>
              end.resume.value.mem.status.Matched? && !end.resume.value.mem.fields.destination
  {
    RunKeepsInv(st, events);
    ProviderIsFixed(st, events);
  }

  lemma {:induction false} ProviderIsFixed(st: State, events: seq<Event>)
    ensures Run(st, events).provider == st.provider
    decreases |events|
  {
    if events != [] {
      ProviderIsFixed(Step(st, events[0]), events[1..]);
    }
  }

  /** A question of the current version that offers a choice finds the recording in manual review, and
      so does every question about an interview. */
  lemma CurrentQuestionsFindManualReview(st: State, events: seq<Event>, i: nat)
    requires Initial(st)
    ensures var end := Run(st, events);
            i < |end.questions| && end.questions[i].version == end.row.version
            && (end.row.interview || end.questions[i].choices != NoChoice) ==>
              end.row.status.Manual?
  {
    RunKeepsInv(st, events);
    var end := Run(st, events);
    if i < |end.questions| {
      assert QuestionInv(end.row, end.direct, end.provider, end.questions[i]);
    }
  }

  lemma SessionsDoNotMatch(st: State, s: Session, reply: Reply)
    requires !st.row.status.Matched?
    ensures !SessionCommit(st, s, reply).row.status.Matched?
  {
    NextStatusIsLegal(s, reply);
  }

  /** A recording becomes matched only together with a new version. */
  lemma MatchedIsEnteredWithNewVersion(st: State, e: Event)
    requires Inv(st) && !st.row.status.Matched? && Step(st, e).row.status.Matched?
    ensures Step(st, e).row.version > st.row.version
  {
    if e.Continue? && st.resume.Some? {
      SessionsDoNotMatch(st, st.resume.value, e.reply);
    } else if e.Resume? {
      SessionsDoNotMatch(st, Session(st.row, false), e.reply);
    }
  }

  /* ---- The row as an object ---- */

  /** All commits that a resumed transfer makes when the replies come in this order; it is cut off when
      they run out. */
  function Driven(s: Session, replies: seq<Reply>): Row
    decreases |replies|
  {
    if replies == [] then s.mem
    else
      match NextStatus(s, replies[0])
      case None => s.mem
      case Some(to) =>
        if to in {Manual, Failed, Completed} then Written(s.mem, to)
        else Driven(Session(Written(s.mem, to), s.ownMatch), replies[1..])
  }

  function Continues(replies: seq<Reply>): seq<Event> {
    if replies == [] then [] else [Continue(replies[0])] + Continues(replies[1..])
  }

  /** Driving the session is the run of its commits, nobody else writing. */
  lemma {:induction false} DrivenIsARun(st: State, replies: seq<Reply>)
    requires st.resume.Some? && st.row == st.resume.value.mem && !st.row.status.Matched?
    ensures Run(st, Continues(replies)).row == Driven(st.resume.value, replies)
    decreases |replies|
  {
    if replies != [] {
      var s := st.resume.value;
      var t := Step(st, Continue(replies[0]));
      assert Continues(replies)[1..] == Continues(replies[1..]);
      if t.resume.Some? {
        DrivenIsARun(t, replies[1..]);
      } else {
        EndedStays(t, replies[1..]);
      }
    }
  }

  lemma {:induction false} EndedStays(st: State, replies: seq<Reply>)
    requires st.resume.None?
    ensures Run(st, Continues(replies)) == st
    decreases |replies|
  {
    if replies != [] {
      assert Continues(replies)[1..] == Continues(replies[1..]);
      EndedStays(st, replies[1..]);
    }
  }

  function StageOf(status: Status): nat {
    match status
    case TransferStarted => 0
    case Uploaded => 1
    case Linked => 2
    case CardUpdated => 3
    case AwaitingEmail => 4
    case SourceMarked => 5
    case _ => 6
  }

  class Recording {
    var status: Status
    var version: nat
    var interview: bool
    var fields: Fields
    var choices: Choices

    ghost function View(): Row
      reads this
    {
      Row(status, version, interview, fields, choices)
    }

    constructor ()
      ensures View() == Row(Found, 0, true, Fields(false, false, false, false, false, false, false, false, false),
                            NoChoice)
    {
      status, version, interview, choices := Found, 0, true, NoChoice;
      fields := Fields(false, false, false, false, false, false, false, false, false);
    }

    /** Refuses a status that the table does not lead to. */
    method TransitionTo(to: Status) returns (ok: bool)
      modifies this`status
      ensures ok == (to in Transitions(old(status)))
      ensures View() == if ok then old(View()).(status := to) else old(View())
    {
      ok := to in Transitions(status);
      if ok {
        status := to;
      }
    }

    method Advance(to: Status) returns (ok: bool)
      modifies this`status, this`fields, this`choices
      ensures ok == (to in Transitions(old(status)))
      ensures View() == if ok then Written(old(View()), to) else old(View())
    {
      ok := TransitionTo(to);
      if ok {
        match to
        case Manual => choices := NoChoice;
        case Uploaded => fields := fields.(path := true);
        case Linked => fields := fields.(url := true);
        case _ =>
      }
    }

    method TakeInterviewRoute(expected: nat) returns (ok: bool)
      modifies this
      ensures ok == MayRouteInterview(old(View()), expected)
      ensures View() == if ok then InterviewRouted(old(View())) else old(View())
    {
      if version != expected || !interview || status !in {Matched, Manual, Failed}
         || !fields.filename || !fields.candidate || !fields.page {
        return false;
      }
      if status.Failed? {
        fields := fields.(path := false, url := false);
      }
      fields := fields.(destination := true, key := false, identity := true);
      ok := TransitionTo(TransferStarted);
      version := version + 1;
    }

    method TakeOtherRoute(expected: nat) returns (ok: bool)
      modifies this
      ensures ok == MayRouteElsewhere(old(View()), expected)
      ensures View() == if ok then ElsewhereRouted(old(View())) else old(View())
    {
      var retry := status.Failed? && !interview;
      if version != expected || (!status.Manual? && !retry) {
        return false;
      }
      if retry {
        fields := fields.(path := false, url := false);
      }
      interview := false;
      fields := fields.(filename := true, identity := true, destination := true, key := true);
      ok := TransitionTo(TransferStarted);
      version := version + 1;
    }

    /** One stage: the outside call, and the commit it leads to. */
    method Stage(reply: Reply) returns (goesOn: bool)
      requires status in RESUMABLE - {EventFound, Matched} || status.SourceMarked?
      modifies this`status, this`fields, this`choices
      ensures match NextStatus(Session(old(View()), false), reply)
              case None => !goesOn && View() == old(View())
              case Some(to) =>
                View() == Written(old(View()), to) && goesOn == (to !in {Manual, Failed, Completed})
    {
      var to := status;
      match status {
        case TransferStarted =>
          if reply.Success? { to := Uploaded; } else if reply.Ask? { to := Manual; }
          else if reply.Broke? { to := Failed; }
        case Uploaded =>
          if !fields.path || reply.Broke? { to := Failed; } else if reply.Success? { to := Linked; }
        case Linked =>
          if !interview { to := Completed; }
          else if !fields.url || !fields.eventStart || reply.Broke? { to := Failed; }
          else if reply.Success? { to := CardUpdated; }
        case CardUpdated => to := AwaitingEmail;
        case AwaitingEmail =>
          if reply.Success? { to := Completed; } else if reply.Marked? { to := SourceMarked; }
          else if reply.Broke? { to := Failed; }
        case SourceMarked => to := Completed;
      }
      if to == status {
        return false;
      }
      var ok := Advance(to);
      goesOn := to !in {Manual, Failed, Completed};
    }

    /** What a run has done so far, and what it still has to do. */
    ghost predicate Underway(start: Session, replies: seq<Reply>, k: nat, goesOn: bool, stage: nat)
      reads this
    {
      && k <= |replies|
      && (goesOn ==> Committed(status) && !status.Completed? && !status.SourceDeleted?)
      && (goesOn && k < |replies| ==> stage <= StageOf(status))
      && Driven(start, replies) == if goesOn then Driven(Session(View(), false), replies[k..]) else View()
    }

    /** The stage that belongs to `at`, if the row has got there and the run is not over. */
    method StageAt(at: Status, ghost start: Session, replies: seq<Reply>, k: nat, goesOn: bool)
      returns (k': nat, goesOn': bool)
      requires Underway(start, replies, k, goesOn, StageOf(at)) && StageOf(at) < 6
      modifies this`status, this`fields, this`choices
      ensures Underway(start, replies, k', goesOn', StageOf(at) + 1)
    {
      k', goesOn' := k, goesOn;
      if goesOn && k < |replies| && status == at {
        goesOn' := Stage(replies[k]);
        k' := k + 1;
      }
    }

    /** Stage after stage, each entered by the status the one before it left. */
    method RunStages(replies: seq<Reply>)
      requires Committed(status) && status in RESUMABLE
      modifies this`status, this`fields, this`choices
      ensures View() == Driven(Session(old(View()), false), replies)
    {
      ghost var start := Session(View(), false);
      var k, goesOn := StageAt(TransferStarted, start, replies, 0, true);
      k, goesOn := StageAt(Uploaded, start, replies, k, goesOn);
      k, goesOn := StageAt(Linked, start, replies, k, goesOn);
      k, goesOn := StageAt(CardUpdated, start, replies, k, goesOn);
      k, goesOn := StageAt(AwaitingEmail, start, replies, k, goesOn);
      k, goesOn := StageAt(SourceMarked, start, replies, k, goesOn);
    }

    /** `_resume_committed_transfer_steps`: refuses an incomplete row, and drives a complete one. */
    method ResumeCommittedSteps(replies: seq<Reply>)
      requires Committed(status) && status in RESUMABLE
      modifies this`status, this`fields, this`choices
      ensures View() == if Complete(old(View())) then Driven(Session(old(View()), false), replies)
                        else Written(old(View()), Failed)
    {
      var complete := fields.filename && fields.identity && (fields.destination || fields.key)
                      && (interview ==> fields.candidate && fields.page);
      if complete {
        RunStages(replies);
      } else {
        var ok := Advance(Failed);
      }
    }
  }
}
