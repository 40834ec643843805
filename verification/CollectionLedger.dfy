/** Collections: idempotent submission with retry attempts, one serial worker, settlement of stale publications. */
module CollectionLedger {
  import opened Common

  // ---------------------------------------------------------------- documents

  datatype CommandStatus = QUEUED | RUNNING | COMPLETED | FAILED_TERMINAL
  datatype Kind = BASELINE | INCREMENTAL | NO_CHANGES
  datatype Outcome = ACCEPTED | DUPLICATE | FAILED

  datatype Document = Document(
    attempt: nat,
    status: CommandStatus,
    terminal: bool,
    kind: Option<Kind>,
    stages: seq<string>,
    outcome: Outcome,
    reason: Option<string>)

  /** A command is named by the digest of its identity and the attempt. */
  datatype Command = Command(digest: string, attempt: nat)

  function CommandId(c: Command): string
  {
    "cmd-ui-" + c.digest + if c.attempt <= 1 then "" else "-r" + Decimal(c.attempt)
  }

  function Queued(attempt: nat): Document
  {
    Document(attempt, QUEUED, false, None, [], ACCEPTED, None)
  }

  function Failed(document: Document, reason: string): Document
  {
    document.(outcome := FAILED, reason := Some(reason), status := FAILED_TERMINAL, terminal := true)
  }

  function StageCount(kind: Kind): nat
  {
    if kind == NO_CHANGES then 0 else 11
  }

  function StageName(kind: Kind, i: nat): string
  {
    if i == 0 then "intake" else (if kind == BASELINE then "B" else "I") + Decimal(i)
  }

  /** The stages a run of this kind records, in order. */
  function StageOrder(kind: Kind): (order: seq<string>)
    ensures |order| == StageCount(kind)
  {
    seq(StageCount(kind), i requires 0 <= i => StageName(kind, i))
  }

  /** How many attempts an identity has seen. */
  function Attempts(heads: map<string, Command>, digest: string): nat
  {
    if digest in heads then heads[digest].attempt else 0
  }

  /** The stages by name: what a finished collection has recorded. */
  lemma StagesByName()
    ensures StageOrder(BASELINE) == ["intake", "B1", "B2", "B3", "B4", "B5", "B6", "B7", "B8", "B9", "B10"]
    ensures StageOrder(INCREMENTAL) == ["intake", "I1", "I2", "I3", "I4", "I5", "I6", "I7", "I8", "I9", "I10"]
    ensures StageOrder(NO_CHANGES) == []
  {
    EachStage('B', BASELINE);
    EachStage('I', INCREMENTAL);
    assert StageOrder(BASELINE) == ["intake", "B1", "B2", "B3", "B4", "B5", "B6", "B7", "B8", "B9", "B10"];
    assert StageOrder(INCREMENTAL) == ["intake", "I1", "I2", "I3", "I4", "I5", "I6", "I7", "I8", "I9", "I10"];
  }

  lemma EachStage(prefix: char, kind: Kind)
    requires prefix == (if kind == BASELINE then 'B' else 'I')
    ensures StageName(kind, 0) == "intake" && StageName(kind, 10) == [prefix, '1', '0']
    ensures forall i: nat :: 1 <= i < 10 ==> StageName(kind, i) == [prefix, "0123456789"[i]]
  {
    assert Decimal(10) == Decimal(1) + ['0'];
  }

  // ---------------------------------------------------------------- the ledger and the worker

  /** What the worker is doing with the job it holds. */
  datatype Phase =
    | Taken                    // the document is read, nothing is written
    | Running                  // marked RUNNING, not planned
    | Planned(kind: Kind)      // recording stages
    | Closing                  // marked COMPLETED, the repository head is to be written
    | Failing(reason: string)  // an exception reached the handler

  datatype Worker = Idle | Working(command: Command, state: Document, phase: Phase)

  /**
   * `leaving` holds the submissions that registered a command and have not queued its job yet;
   * `taken` holds every job the worker ever took, in order.
   */
  datatype Ledger = Ledger(
    heads: map<string, Command>,
    documents: map<Command, Document>,
    leaving: set<Command>,
    queue: seq<Command>,
    taken: seq<Command>,
    worker: Worker)

  const EMPTY := Ledger(map[], map[], {}, [], [], Idle)

  /** How a write ends: stored, refused, or stored although the caller sees an error. */
  datatype Put = Stored | Refused | Unanswered

  /** What the worker does next with its job; each but a raised exception ends in a write. */
  datatype Act =
    | Begin
    | Plan(kind: Kind)
    | Note                   // timings, counts, coverage; one that fails is repeated or raised by the runner
    | Record                 // the next stage is finished
    | Duplicate              // nothing changed since the recorded head
    | PutHead
    | Raise(reason: string)
    | Report                 // the handler writes the failure

  datatype Step =
    | Register(digest: string, document: Put, head: Put)
    | Enqueue(command: Command)
    | Take
    | Lose                         // reading the document failed: the job is dropped
    | Work(act: Act, put: Put)
    | Settle(command: Command)     // a stale publication is settled

  /** The attempt a submission makes now, or none when a live command answers it. */
  function NextAttempt(s: Ledger, digest: string): Option<Command>
  {
    if digest !in s.heads || s.heads[digest] !in s.documents then Some(Command(digest, 1))
    else
      var existing := s.documents[s.heads[digest]];
      if existing.status != FAILED_TERMINAL then None else Some(Command(digest, existing.attempt + 1))
  }

  function Documented(s: Ledger, c: Command): Ledger
  {
    s.(documents := s.documents[c := Queued(c.attempt)])
  }

  /** The head names the command; a submission that saw no error goes on to queue the job. */
  function Headed(s: Ledger, c: Command, put: Put): Ledger
  {
    if put == Refused then s
    else s.(heads := s.heads[c.digest := c], leaving := if put == Stored then s.leaving + {c} else s.leaving)
  }

  /** The document is written, then the head; the first error ends the submission. */
  function Started(s: Ledger, c: Command, document: Put, head: Put): Ledger
  {
    match document
    case Refused => s
    case Unanswered => Documented(s, c)
    case Stored => Headed(Documented(s, c), c, head)
  }

  function Registered(s: Ledger, digest: string, document: Put, head: Put): Ledger
  {
    match NextAttempt(s, digest)
    case None => s
    case Some(c) => Started(s, c, document, head)
  }

  /** The worker writes `state` and goes on in `phase`, or in the handler when it sees an error. */
  function Written(s: Ledger, state: Document, phase: Phase, put: Put): Ledger
    requires s.worker.Working?
  {
    var c := s.worker.command;
    s.(documents := if put == Refused then s.documents else s.documents[c := state],
       worker := Working(c, state, if put == Stored then phase else Failing("PIPELINE_FAILED")))
  }

  function Settled(s: Ledger, c: Command): Ledger
  {
    if c !in s.documents then s
    else s.(documents := s.documents[c := Failed(s.documents[c], "STALE_PROPOSAL_BASE")])
  }

  /** The document with its next stage recorded; the last stage completes the collection. */
  function Recorded(state: Document, kind: Kind): Document
    requires |state.stages| < StageCount(kind)
  {
    var n := |state.stages|;
    var more := state.(stages := state.stages + [StageName(kind, n)]);
    if n + 1 < StageCount(kind) then more
    else more.(outcome := ACCEPTED, status := COMPLETED, terminal := true)
  }

  predicate CanDo(worker: Worker, act: Act)
    requires worker.Working?
  {
    var phase := worker.phase;
    match act
    case Begin => phase == Taken
    case Plan(_) => phase == Running
    case Note => phase == Running || phase.Planned?
    case Record => phase.Planned? && |worker.state.stages| < StageCount(phase.kind)
    case Duplicate => phase == Planned(NO_CHANGES)
    case PutHead => phase == Closing
    case Raise(_) => phase == Running || phase.Planned? || phase == Closing
    case Report => phase.Failing?
  }

  function Found(state: Document): Document
  {
    state.(outcome := DUPLICATE, reason := Some("NO_CHANGES"), status := COMPLETED, terminal := true)
  }

  function Did(s: Ledger, act: Act, put: Put): Ledger
    requires s.worker.Working? && CanDo(s.worker, act)
  {
    var c, state, phase := s.worker.command, s.worker.state, s.worker.phase;
    match act
    case Begin => Written(s, state.(status := RUNNING), Running, put)
    case Plan(kind) => Written(s, state.(kind := Some(kind)), Planned(kind), put)
    case Note => Written(s, state, phase, put).(worker := s.worker)
    case Record =>
      var after := Recorded(state, phase.kind);
      Written(s, after, if after.terminal then Closing else phase, put)
    case Duplicate =>
      var after := Written(s, Found(state), Closing, put);
      if put == Stored then after.(worker := Idle) else after
    case PutHead =>
      s.(worker := if put == Stored then Idle else Working(c, state, Failing("PIPELINE_FAILED")))
    case Raise(reason) => s.(worker := Working(c, state, Failing(reason)))
    case Report => Written(s, Failed(state, phase.reason), phase, put).(worker := Idle)
  }

  predicate Enabled(s: Ledger, step: Step)
  {
    match step
    case Register(_, _, _) => true
    case Enqueue(c) => c in s.leaving
    case Take => s.worker.Idle? && s.queue != [] && s.queue[0] in s.documents
    case Lose => s.worker.Idle? && s.queue != []
    case Work(act, _) => s.worker.Working? && CanDo(s.worker, act)
    case Settle(_) => true
  }

  function TakenOff(s: Ledger, worker: Worker): Ledger
    requires s.queue != []
  {
    s.(queue := s.queue[1..], taken := s.taken + [s.queue[0]], worker := worker)
  }

  function Next(s: Ledger, step: Step): Ledger
    requires Enabled(s, step)
  {
    match step
    case Register(digest, document, head) => Registered(s, digest, document, head)
    case Enqueue(c) => s.(leaving := s.leaving - {c}, queue := s.queue + [c])
    case Take => TakenOff(s, Working(s.queue[0], s.documents[s.queue[0]], Taken))
    case Lose => TakenOff(s, Idle)
    case Work(act, put) => Did(s, act, put)
    case Settle(c) => Settled(s, c)
  }

  // ---------------------------------------------------------------- runs

  predicate Terminal(s: Ledger, c: Command)
  {
    c in s.documents ==> s.documents[c].terminal
  }

  /** A head has named the command. */
  predicate Issued(s: Ledger, c: Command)
  {
    c in s.documents && c.attempt <= Attempts(s.heads, c.digest)
  }

  /** The worker will still write for the command: its job waits, or it is at work on it outside the handler. */
  predicate InHand(s: Ledger, c: Command)
  {
    c in s.leaving || c in s.queue
    || (s.worker.Working? && s.worker.command == c && !s.worker.phase.Failing?)
  }

  /** Every step can be taken, and a settlement finds a terminal document. */
  predicate Legal(s: Ledger, steps: seq<Step>)
    decreases |steps|
  {
    steps == []
    || (&& Enabled(s, steps[0])
        && (steps[0].Settle? ==> Terminal(s, steps[0].command))
        && Legal(Next(s, steps[0]), steps[1..]))
  }

  function Run(s: Ledger, steps: seq<Step>): Ledger
    requires Legal(s, steps)
    decreases |steps|
  {
    if steps == [] then s else Run(Next(s, steps[0]), steps[1..])
  }

  // ---------------------------------------------------------------- what every run keeps

  ghost predicate StagesFollow(document: Document)
  {
    match document.kind
    case None => document.stages == []
    case Some(kind) => document.stages <= StageOrder(kind)
  }

  /** A completed collection recorded every stage of its workflow, or found nothing to do. */
  ghost predicate CompletedProperly(document: Document)
  {
    document.kind.Some? && document.stages == StageOrder(document.kind.value)
    && document.outcome == (if document.kind.value == NO_CHANGES then DUPLICATE else ACCEPTED)
  }

  ghost predicate Sound(c: Command, document: Document)
  {
    && document.attempt == c.attempt
    && StagesFollow(document)
    && document.terminal == (document.status in {COMPLETED, FAILED_TERMINAL})
    && (document.status == COMPLETED ==> CompletedProperly(document))
    && (document.status == FAILED_TERMINAL <==> document.outcome == FAILED)
    && (document.outcome == DUPLICATE ==> document.status == COMPLETED)
  }

  /** The head names the newest attempt. */
  ghost predicate HeadsName(heads: map<string, Command>)
  {
    forall d :: d in heads ==> heads[d] == Command(d, Attempts(heads, d)) && Attempts(heads, d) >= 1
  }

  /**
   * Attempts are numbered from one without gaps; at most one is behind the newest the head names: its
   * document was written and its head was not.
   */
  ghost predicate Numbered(heads: map<string, Command>, known: set<Command>)
  {
    && (forall c: Command :: 1 <= c.attempt <= Attempts(heads, c.digest) ==> c in known)
    && (forall c :: c in known ==> 1 <= c.attempt <= Attempts(heads, c.digest) + 1)
  }

  ghost predicate OlderFailed(documents: map<Command, Document>)
  {
    forall c, d :: c in documents && d in documents && c.digest == d.digest && c.attempt < d.attempt ==>
                     documents[c].status == FAILED_TERMINAL
  }

  /** How often a command is about to be queued, in the queue, or was taken. */
  function Places(taken: seq<Command>, queue: seq<Command>, leaving: set<Command>, c: Command): nat
  {
    multiset(taken)[c] + multiset(queue)[c] + if c in leaving then 1 else 0
  }

  /** A command is in one place at most, and only one that a head has named is in any. */
  ghost predicate AccountedOnce(heads: map<string, Command>, taken: seq<Command>, queue: seq<Command>,
                                leaving: set<Command>)
  {
    forall c :: Places(taken, queue, leaving, c) == 0
                || (Places(taken, queue, leaving, c) == 1 && 1 <= c.attempt <= Attempts(heads, c.digest))
  }

  ghost predicate AllSound(documents: map<Command, Document>)
  {
    forall c :: c in documents ==> Sound(c, documents[c])
  }

  /** Nothing is written for a command before its job is taken. */
  ghost predicate Untouched(heads: map<string, Command>, documents: map<Command, Document>, queue: seq<Command>,
                            leaving: set<Command>)
  {
    forall c :: c in documents && (c in leaving || c in queue || c.attempt > Attempts(heads, c.digest)) ==>
                  documents[c] == Queued(c.attempt)
  }

  /** The worker's cached document agrees with the ledger as far as its phase needs. */
  ghost predicate WorkerAgrees(documents: map<Command, Document>, taken: seq<Command>, worker: Worker)
  {
    worker.Working? ==>
      var c, state, phase := worker.command, worker.state, worker.phase;
      && c in taken && c in documents
      && StagesFollow(state) && state.attempt == c.attempt && documents[c].stages <= state.stages
      && (phase == Taken ==> state == documents[c] == Queued(c.attempt))
      && (phase == Running || phase.Planned? ==>
            state == documents[c] && state.status == RUNNING && state.outcome == ACCEPTED)
      && (phase == Running ==> state.kind.None?)
      && (phase.Planned? ==> state.kind == Some(phase.kind))
      && (phase == Closing ==> documents[c].terminal)
  }

  ghost predicate Inv(s: Ledger)
  {
    && HeadsName(s.heads)
    && Numbered(s.heads, s.documents.Keys)
    && OlderFailed(s.documents)
    && AccountedOnce(s.heads, s.taken, s.queue, s.leaving)
    && AllSound(s.documents)
    && Untouched(s.heads, s.documents, s.queue, s.leaving)
    && WorkerAgrees(s.documents, s.taken, s.worker)
  }

  lemma RecordedFollows(state: Document, kind: Kind)
    requires state.kind == Some(kind) && StagesFollow(state) && |state.stages| < StageCount(kind)
    requires state.status == RUNNING && state.outcome == ACCEPTED && !state.terminal
    ensures var next := Recorded(state, kind);
            && StagesFollow(next) && next.kind == state.kind && next.attempt == state.attempt
            && next.terminal == (next.status == COMPLETED)
            && (next.status == COMPLETED ==> CompletedProperly(next))
            && next.status in {RUNNING, COMPLETED} && next.outcome == ACCEPTED
  {
    var order, n := StageOrder(kind), |state.stages|;
    assert state.stages + [order[n]] == order[..n + 1];
    assert order[..|order|] == order;
  }

  // The invariant is kept conjunct by conjunct.

  /** What a submission finds when it makes a new attempt: the number is free or names a document left behind. */
  ghost predicate Fresh(s: Ledger, c: Command)
  {
    && c.attempt == Attempts(s.heads, c.digest) + 1
    && Places(s.taken, s.queue, s.leaving, c) == 0
    && (c in s.documents ==> s.documents[c] == Queued(c.attempt))
    && (forall d :: d in s.documents && d.digest == c.digest && d != c ==>
                      d.attempt < c.attempt && s.documents[d].status == FAILED_TERMINAL)
  }

  lemma FreshAttempt(s: Ledger, digest: string)
    requires Inv(s) && NextAttempt(s, digest).Some?
    ensures NextAttempt(s, digest).value == Command(digest, Attempts(s.heads, digest) + 1)
    ensures Fresh(s, Command(digest, Attempts(s.heads, digest) + 1))
  {
    var c := Command(digest, Attempts(s.heads, digest) + 1);
    if digest in s.heads {
      var head := s.heads[digest];
      assert head == Command(digest, Attempts(s.heads, digest));
      assert head in s.documents.Keys;
      assert Sound(head, s.documents[head]);
    }
    assert Places(s.taken, s.queue, s.leaving, c) == 0;
    forall d | d in s.documents && d.digest == digest && d != c
      ensures d.attempt < c.attempt && s.documents[d].status == FAILED_TERMINAL
    {
      assert d in s.documents.Keys;
      if d.attempt == Attempts(s.heads, digest) {
        assert d == s.heads[digest];
      }
    }
  }

  lemma NewDocumentIsNewest(documents: map<Command, Document>, c: Command)
    requires OlderFailed(documents)
    requires forall d :: d in documents && d.digest == c.digest && d != c ==>
                           d.attempt < c.attempt && documents[d].status == FAILED_TERMINAL
    ensures OlderFailed(documents[c := Queued(c.attempt)])
  {
  }

  lemma QueuedIsSound(documents: map<Command, Document>, c: Command)
    requires AllSound(documents)
    ensures AllSound(documents[c := Queued(c.attempt)])
  {
    assert Sound(c, Queued(c.attempt));
  }

  lemma WorkerIsElsewhere(documents: map<Command, Document>, taken: seq<Command>, worker: Worker, c: Command)
    requires WorkerAgrees(documents, taken, worker) && c !in taken
    ensures WorkerAgrees(documents[c := Queued(c.attempt)], taken, worker)
  {
  }

  lemma DocumentKeeps(s: Ledger, c: Command)
    requires Inv(s) && Fresh(s, c)
    ensures Inv(Documented(s, c)) && Fresh(Documented(s, c), c)
  {
    assert Documented(s, c).documents.Keys == s.documents.Keys + {c};
    assert c !in s.taken by {
      assert multiset(s.taken)[c] == 0;
    }
    NewDocumentIsNewest(s.documents, c);
    QueuedIsSound(s.documents, c);
    WorkerIsElsewhere(s.documents, s.taken, s.worker, c);
  }

  lemma HeadCounts(heads: map<string, Command>, c: Command)
    ensures Attempts(heads[c.digest := c], c.digest) == c.attempt
    ensures forall d: string :: d != c.digest ==> Attempts(heads[c.digest := c], d) == Attempts(heads, d)
  {
  }

  lemma LeavingCounts(taken: seq<Command>, queue: seq<Command>, leaving: set<Command>, c: Command)
    requires c !in leaving
    ensures forall d :: Places(taken, queue, leaving + {c}, d)
                        == Places(taken, queue, leaving, d) + if d == c then 1 else 0
  {
  }

  lemma NewHeadNumbers(heads: map<string, Command>, known: set<Command>, c: Command)
    requires HeadsName(heads) && Numbered(heads, known) && c in known && c.attempt == Attempts(heads, c.digest) + 1
    ensures HeadsName(heads[c.digest := c]) && Numbered(heads[c.digest := c], known)
  {
    HeadCounts(heads, c);
    forall d: Command | 1 <= d.attempt <= Attempts(heads[c.digest := c], d.digest) ensures d in known {
      if d.digest == c.digest && d.attempt == c.attempt {
        assert d == c;
      }
    }
  }

  lemma NewHeadAccounts(heads: map<string, Command>, taken: seq<Command>, queue: seq<Command>, leaving: set<Command>,
                        c: Command)
    requires AccountedOnce(heads, taken, queue, leaving) && c.attempt == Attempts(heads, c.digest) + 1
    requires Places(taken, queue, leaving, c) == 0
    ensures AccountedOnce(heads[c.digest := c], taken, queue, leaving)
    ensures AccountedOnce(heads[c.digest := c], taken, queue, leaving + {c})
  {
    HeadCounts(heads, c);
    LeavingCounts(taken, queue, leaving, c);
  }

  lemma NewHeadTouchesNothing(heads: map<string, Command>, documents: map<Command, Document>, queue: seq<Command>,
                              leaving: set<Command>, c: Command)
    requires Untouched(heads, documents, queue, leaving) && c.attempt == Attempts(heads, c.digest) + 1
    requires c in documents ==> documents[c] == Queued(c.attempt)
    ensures Untouched(heads[c.digest := c], documents, queue, leaving)
    ensures Untouched(heads[c.digest := c], documents, queue, leaving + {c})
  {
    HeadCounts(heads, c);
  }

  lemma HeadKeeps(s: Ledger, c: Command, put: Put)
    requires Inv(s) && Fresh(s, c) && c in s.documents
    ensures Inv(Headed(s, c, put))
  {
    NewHeadNumbers(s.heads, s.documents.Keys, c);
    NewHeadAccounts(s.heads, s.taken, s.queue, s.leaving, c);
    NewHeadTouchesNothing(s.heads, s.documents, s.queue, s.leaving, c);
  }

  lemma RegisterKeeps(s: Ledger, digest: string, document: Put, head: Put)
    requires Inv(s)
    ensures Inv(Registered(s, digest, document, head))
  {
    if NextAttempt(s, digest).Some? {
      var c := NextAttempt(s, digest).value;
      FreshAttempt(s, digest);
      DocumentKeeps(s, c);
      HeadKeeps(Documented(s, c), c, head);
    }
  }

  lemma EnqueueKeeps(s: Ledger, c: Command)
    requires Inv(s) && c in s.leaving
    ensures Inv(Next(s, Enqueue(c)))
  {
    var next := Next(s, Enqueue(c));
    assert multiset(next.queue) == multiset(s.queue) + multiset{c};
    assert Places(s.taken, s.queue, s.leaving, c) >= 1;
    forall d ensures Places(next.taken, next.queue, next.leaving, d) == Places(s.taken, s.queue, s.leaving, d) {
    }
    assert AccountedOnce(next.heads, next.taken, next.queue, next.leaving);
    assert Untouched(next.heads, next.documents, next.queue, next.leaving);
  }

  lemma HeadOfQueue(q: seq<Command>, c: Command)
    requires q != [] && c == q[0]
    ensures multiset(q) == multiset{c} + multiset(q[1..]) && c in q
    ensures forall d :: d in q[1..] ==> d in q
  {
    assert q == [c] + q[1..];
  }

  lemma TakeKeeps(s: Ledger, worker: Worker)
    requires Inv(s) && s.queue != []
    requires worker.Idle? || (s.queue[0] in s.documents && worker == Working(s.queue[0], s.documents[s.queue[0]], Taken))
    ensures Inv(TakenOff(s, worker))
  {
    var c, next := s.queue[0], TakenOff(s, worker);
    HeadOfQueue(s.queue, c);
    assert multiset(next.taken) == multiset(s.taken) + multiset{c};
    forall d ensures Places(next.taken, next.queue, next.leaving, d) == Places(s.taken, s.queue, s.leaving, d) {
    }
    assert AccountedOnce(next.heads, next.taken, next.queue, next.leaving);
    assert Untouched(next.heads, next.documents, next.queue, next.leaving);
    assert c in next.taken && (c in s.documents ==> Sound(c, s.documents[c]));
  }

  lemma TakenIsNotWaiting(s: Ledger, c: Command)
    requires Inv(s) && c in s.taken
    ensures c !in s.queue && c !in s.leaving && c.attempt <= Attempts(s.heads, c.digest)
  {
    assert multiset(s.taken)[c] >= 1;
    assert Places(s.taken, s.queue, s.leaving, c) >= 1;
  }

  /** Replacing the document of a command that waits no more keeps everything that the worker leaves alone. */
  lemma ReplaceKeeps(s: Ledger, c: Command, document: Document, worker: Worker)
    requires Inv(s) && c in s.documents && c !in s.queue && c !in s.leaving && Sound(c, document)
    requires c.attempt <= Attempts(s.heads, c.digest)
    requires document.status == FAILED_TERMINAL || s.documents[c].status != FAILED_TERMINAL
    requires WorkerAgrees(s.documents[c := document], s.taken, worker)
    ensures Inv(s.(documents := s.documents[c := document], worker := worker))
  {
    assert s.documents[c := document].Keys == s.documents.Keys;
    ReplacedStaysFailed(s.documents, c, document);
    ReplacedStaysSound(s.documents, c, document);
  }

  lemma ReplacedStaysFailed(documents: map<Command, Document>, c: Command, document: Document)
    requires OlderFailed(documents) && c in documents
    requires document.status == FAILED_TERMINAL || documents[c].status != FAILED_TERMINAL
    ensures OlderFailed(documents[c := document])
  {
  }

  lemma ReplacedStaysSound(documents: map<Command, Document>, c: Command, document: Document)
    requires AllSound(documents) && Sound(c, document)
    ensures AllSound(documents[c := document])
  {
  }

  /** Failing a command that has ended, or that nobody will touch again, is safe. */
  lemma SettleKeeps(s: Ledger, c: Command)
    requires Inv(s) && (c in s.documents ==> Issued(s, c) && (s.documents[c].terminal || !InHand(s, c)))
    ensures Inv(Settled(s, c))
  {
    if c in s.documents {
      var document := Failed(s.documents[c], "STALE_PROPOSAL_BASE");
      assert Sound(c, s.documents[c]);
      assert Sound(c, document);
      ReplaceKeeps(s, c, document, s.worker);
    }
  }

  lemma TerminalIsIssued(s: Ledger, c: Command)
    requires Inv(s) && c in s.documents && s.documents[c].terminal
    ensures Issued(s, c)
  {
    assert s.documents[c] != Queued(c.attempt);
  }

  /** The document and the worker fit together after this write. */
  ghost predicate Fits(s: Ledger, state: Document, phase: Phase)
    requires s.worker.Working? && s.worker.command in s.documents
  {
    var c := s.worker.command;
    && Sound(c, state) && s.documents[c].stages <= state.stages
    && (state.status == FAILED_TERMINAL || s.documents[c].status != FAILED_TERMINAL)
    && WorkerAgrees(s.documents[c := state], s.taken, Working(c, state, phase))
  }

  /** A write of the worker that keeps a live command sound, or fails it, keeps the invariant. */
  lemma WriteKeeps(s: Ledger, state: Document, phase: Phase, put: Put)
    requires Inv(s) && s.worker.Working? && Fits(s, state, phase)
    ensures Inv(Written(s, state, phase, put))
  {
    var c := s.worker.command;
    TakenIsNotWaiting(s, c);
    if put != Refused {
      ReplaceKeeps(s, c, state, Written(s, state, phase, put).worker);
    }
  }

  /** A worker that only changes its mind keeps the rest. */
  lemma WorkerKeeps(s: Ledger, worker: Worker)
    requires Inv(s) && WorkerAgrees(s.documents, s.taken, worker)
    ensures Inv(s.(worker := worker))
  {
  }

  lemma FailureFits(s: Ledger)
    requires Inv(s) && s.worker.Working? && s.worker.phase.Failing?
    ensures Fits(s, Failed(s.worker.state, s.worker.phase.reason), s.worker.phase)
  {
    assert Sound(s.worker.command, s.documents[s.worker.command]);
  }

  lemma BeginFits(s: Ledger)
    requires Inv(s) && s.worker.Working? && s.worker.phase == Taken
    ensures Fits(s, s.worker.state.(status := RUNNING), Running)
  {
    assert Sound(s.worker.command, s.documents[s.worker.command]);
  }

  lemma PlanFits(s: Ledger, kind: Kind)
    requires Inv(s) && s.worker.Working? && s.worker.phase == Running
    ensures Fits(s, s.worker.state.(kind := Some(kind)), Planned(kind))
  {
    assert Sound(s.worker.command, s.documents[s.worker.command]);
    assert [] <= StageOrder(kind);
  }

  lemma DuplicateFits(s: Ledger)
    requires Inv(s) && s.worker.Working? && s.worker.phase == Planned(NO_CHANGES)
    ensures Fits(s, Found(s.worker.state), Closing)
  {
    assert Sound(s.worker.command, s.documents[s.worker.command]);
    assert StageOrder(NO_CHANGES) == [];
  }

  /** The last write of a job, after which the worker is idle. */
  lemma LastWriteKeeps(s: Ledger, state: Document, phase: Phase, put: Put)
    requires Inv(s) && s.worker.Working? && Fits(s, state, phase)
    ensures Inv(Written(s, state, phase, put)) && Inv(Written(s, state, phase, put).(worker := Idle))
  {
    WriteKeeps(s, state, phase, put);
    WorkerKeeps(Written(s, state, phase, put), Idle);
  }

  lemma FailureKeeps(s: Ledger, reason: string)
    requires Inv(s) && s.worker.Working?
    ensures Inv(s.(worker := Working(s.worker.command, s.worker.state, Failing(reason))))
  {
    WorkerKeeps(s, Working(s.worker.command, s.worker.state, Failing(reason)));
  }

  /** Timings and counts are outside this model: a note writes the cached document over an equal one. */
  lemma NoteChangesNothing(s: Ledger, put: Put)
    requires Inv(s) && s.worker.Working? && CanDo(s.worker, Note)
    ensures Did(s, Note, put) == s
  {
    assert s.documents[s.worker.command := s.worker.state] == s.documents;
  }

  lemma RecordKeeps(s: Ledger, put: Put)
    requires Inv(s) && s.worker.Working? && CanDo(s.worker, Record)
    ensures Inv(Did(s, Record, put))
  {
    var state, phase := s.worker.state, s.worker.phase;
    var after := Recorded(state, phase.kind);
    assert Sound(s.worker.command, s.documents[s.worker.command]);
    RecordedFollows(state, phase.kind);
    WriteKeeps(s, after, if after.terminal then Closing else phase, put);
  }

  lemma WorkKeeps(s: Ledger, act: Act, put: Put)
    requires Inv(s) && s.worker.Working? && CanDo(s.worker, act)
    ensures Inv(Did(s, act, put))
  {
    var c, state, phase := s.worker.command, s.worker.state, s.worker.phase;
    match act
    case Begin =>
      BeginFits(s);
      WriteKeeps(s, state.(status := RUNNING), Running, put);
    case Plan(kind) =>
      PlanFits(s, kind);
      WriteKeeps(s, state.(kind := Some(kind)), Planned(kind), put);
    case Note => NoteChangesNothing(s, put);
    case Record => RecordKeeps(s, put);
    case Duplicate =>
      DuplicateFits(s);
      LastWriteKeeps(s, Found(state), Closing, put);
    case PutHead =>
      FailureKeeps(s, "PIPELINE_FAILED");
      WorkerKeeps(s, Idle);
    case Raise(reason) => FailureKeeps(s, reason);
    case Report =>
      FailureFits(s);
      LastWriteKeeps(s, Failed(state, phase.reason), phase, put);
  }

  lemma StepKeeps(s: Ledger, step: Step)
    requires Inv(s) && Enabled(s, step) && (step.Settle? ==> Terminal(s, step.command))
    ensures Inv(Next(s, step))
  {
    match step
    case Register(digest, document, head) => RegisterKeeps(s, digest, document, head);
    case Enqueue(c) => EnqueueKeeps(s, c);
    case Take => TakeKeeps(s, Working(s.queue[0], s.documents[s.queue[0]], Taken));
    case Lose => TakeKeeps(s, Idle);
    case Work(act, put) => WorkKeeps(s, act, put);
    case Settle(c) =>
      if c in s.documents {
        TerminalIsIssued(s, c);
      }
      SettleKeeps(s, c);
  }

  lemma {:induction false} RunKeeps(s: Ledger, steps: seq<Step>)
    requires Inv(s) && Legal(s, steps)
    ensures Inv(Run(s, steps))
    decreases |steps|
  {
    if steps != [] {
      StepKeeps(s, steps[0]);
      RunKeeps(Next(s, steps[0]), steps[1..]);
    }
  }

  // ---------------------------------------------------------------- safety of whole runs

  lemma EmptyKeeps()
    ensures Inv(EMPTY)
  {
  }

  predicate Live(s: Ledger, c: Command)
  {
    c in s.documents && s.documents[c].status != FAILED_TERMINAL
  }

  /** Of one identity at most one command is alive. */
  ghost predicate AtMostOneLive(s: Ledger)
  {
    forall c, d :: Live(s, c) && Live(s, d) && c.digest == d.digest ==> c == d
  }

  /** The document of a submission whose head write never landed: nobody runs it, nobody names it. */
  predicate LeftBehind(s: Ledger, c: Command)
  {
    && c in s.documents && s.documents[c] == Queued(c.attempt)
    && c.attempt == Attempts(s.heads, c.digest) + 1
    && Places(s.taken, s.queue, s.leaving, c) == 0
  }

  predicate NamedByHead(s: Ledger, c: Command)
  {
    c.digest in s.heads && s.heads[c.digest] == c
  }

  lemma InvMeansOneLive(s: Ledger)
    requires Inv(s)
    ensures AtMostOneLive(s)
    ensures forall c :: Live(s, c) ==> NamedByHead(s, c) || LeftBehind(s, c)
  {
    forall c | Live(s, c) ensures NamedByHead(s, c) || LeftBehind(s, c) {
      assert c in s.documents.Keys;
      if c.attempt <= Attempts(s.heads, c.digest) {
        var head := s.heads[c.digest];
        assert head in s.documents.Keys;
        assert head == Command(c.digest, Attempts(s.heads, c.digest));
      } else {
        assert Places(s.taken, s.queue, s.leaving, c) == 0;
      }
    }
  }

  /** What every reader of the ledger may rely on. */
  ghost predicate Safe(s: Ledger)
  {
    && AtMostOneLive(s)
    && (forall c :: Live(s, c) ==> NamedByHead(s, c) || LeftBehind(s, c))
    && (forall c: Command :: 1 <= c.attempt <= Attempts(s.heads, c.digest) ==> c in s.documents)
    && (forall c :: c in s.documents ==> 1 <= c.attempt <= Attempts(s.heads, c.digest) + 1)
    && (forall c :: Places(s.taken, s.queue, s.leaving, c) <= 1)
    && (forall c :: c in s.documents ==>
          StagesFollow(s.documents[c])
          && (s.documents[c].status == COMPLETED ==> CompletedProperly(s.documents[c])))
  }

  lemma InvIsSafe(s: Ledger)
    requires Inv(s)
    ensures Safe(s)
  {
    InvMeansOneLive(s);
    forall c: Command | 1 <= c.attempt <= Attempts(s.heads, c.digest) ensures c in s.documents {
      assert c in s.documents.Keys;
    }
    forall c | c in s.documents
      ensures StagesFollow(s.documents[c])
              && (s.documents[c].status == COMPLETED ==> CompletedProperly(s.documents[c]))
              && 1 <= c.attempt <= Attempts(s.heads, c.digest) + 1
    {
      assert c in s.documents.Keys;
      assert Sound(c, s.documents[c]);
    }
  }

  /**
   * In every run of submissions, worker steps and settlements of terminal documents, with any write failing:
   * one live command per identity, and it is the one the head names or a document left behind by a failed
   * submission; attempts numbered from one without gaps; no job queued twice; stages recorded in workflow
   * order; completion only with all of them.
   */
  lemma EveryRunIsSafe(steps: seq<Step>)
    requires Legal(EMPTY, steps)
    ensures Safe(Run(EMPTY, steps))
  {
    EmptyKeeps();
    RunKeeps(EMPTY, steps);
    InvIsSafe(Run(EMPTY, steps));
  }

  // ---------------------------------------------------------------- when submissions are answered

  predicate WentThrough(step: Step)
  {
    step.Register? ==> step.document == Stored && step.head == Stored
  }

  /** Every document was named by a head, and the job of every one is in exactly one place. */
  ghost predicate Whole(s: Ledger)
  {
    && (forall c :: c in s.documents ==> Issued(s, c))
    && (forall c :: c in s.documents ==> Places(s.taken, s.queue, s.leaving, c) == 1)
  }

  lemma RegisterIsWhole(s: Ledger, digest: string)
    requires Inv(s) && Whole(s)
    ensures Whole(Registered(s, digest, Stored, Stored))
  {
    if NextAttempt(s, digest).Some? {
      var c, next := NextAttempt(s, digest).value, Registered(s, digest, Stored, Stored);
      FreshAttempt(s, digest);
      HeadCounts(s.heads, c);
      LeavingCounts(s.taken, s.queue, s.leaving, c);
      forall d | d in next.documents
        ensures Issued(next, d) && Places(next.taken, next.queue, next.leaving, d) == 1
      {
        assert d != c ==> Issued(s, d);
      }
    }
  }

  lemma EnqueueIsWhole(s: Ledger, c: Command)
    requires Inv(s) && Whole(s) && c in s.leaving
    ensures Whole(Next(s, Enqueue(c)))
  {
    var next := Next(s, Enqueue(c));
    assert multiset(next.queue) == multiset(s.queue) + multiset{c};
    assert Places(s.taken, s.queue, s.leaving, c) >= 1;
    forall d | d in next.documents
      ensures Issued(next, d) && Places(next.taken, next.queue, next.leaving, d) == 1
    {
      assert Issued(s, d) && Places(s.taken, s.queue, s.leaving, d) == 1;
    }
  }

  lemma TakeIsWhole(s: Ledger, worker: Worker)
    requires Whole(s) && s.queue != []
    ensures Whole(TakenOff(s, worker))
  {
    var c, next := s.queue[0], TakenOff(s, worker);
    HeadOfQueue(s.queue, c);
    assert multiset(next.taken) == multiset(s.taken) + multiset{c};
    forall d | d in next.documents
      ensures Issued(next, d) && Places(next.taken, next.queue, next.leaving, d) == 1
    {
      assert Issued(s, d) && Places(s.taken, s.queue, s.leaving, d) == 1;
    }
  }

  lemma DocumentsAreWhole(s: Ledger, next: Ledger)
    requires Whole(s) && SameCommands(s, next)
    ensures Whole(next)
  {
    forall d | d in next.documents.Keys
      ensures Issued(next, d) && Places(next.taken, next.queue, next.leaving, d) == 1
    {
      assert d in s.documents && Issued(s, d);
    }
  }

  ghost predicate SameCommands(before: Ledger, after: Ledger)
  {
    && after.documents.Keys == before.documents.Keys && after.heads == before.heads
    && after.taken == before.taken && after.queue == before.queue && after.leaving == before.leaving
  }

  lemma WriteKeepsCommands(s: Ledger, state: Document, phase: Phase, put: Put, worker: Worker)
    requires s.worker.Working? && s.worker.command in s.documents
    ensures SameCommands(s, Written(s, state, phase, put))
    ensures SameCommands(s, Written(s, state, phase, put).(worker := worker))
  {
    assert s.documents[s.worker.command := state].Keys == s.documents.Keys;
  }

  lemma WorkKeepsCommands(s: Ledger, act: Act, put: Put)
    requires s.worker.Working? && s.worker.command in s.documents && CanDo(s.worker, act)
    ensures SameCommands(s, Did(s, act, put))
  {
    var state, phase := s.worker.state, s.worker.phase;
    match act
    case Begin => WriteKeepsCommands(s, state.(status := RUNNING), Running, put, Idle);
    case Plan(kind) => WriteKeepsCommands(s, state.(kind := Some(kind)), Planned(kind), put, Idle);
    case Note => WriteKeepsCommands(s, state, phase, put, s.worker);
    case Record =>
      var after := Recorded(state, phase.kind);
      WriteKeepsCommands(s, after, if after.terminal then Closing else phase, put, Idle);
    case Duplicate => WriteKeepsCommands(s, Found(state), Closing, put, Idle);
    case PutHead =>
    case Raise(_) =>
    case Report => WriteKeepsCommands(s, Failed(state, phase.reason), phase, put, Idle);
  }

  lemma WorkIsWhole(s: Ledger, act: Act, put: Put)
    requires Inv(s) && Whole(s) && s.worker.Working? && CanDo(s.worker, act)
    ensures Whole(Did(s, act, put))
  {
    WorkKeepsCommands(s, act, put);
    DocumentsAreWhole(s, Did(s, act, put));
  }

  lemma SettledIsWhole(s: Ledger, c: Command)
    requires Whole(s)
    ensures Whole(Settled(s, c))
  {
    assert Settled(s, c).documents.Keys == s.documents.Keys;
    DocumentsAreWhole(s, Settled(s, c));
  }

  lemma StepIsWhole(s: Ledger, step: Step)
    requires Inv(s) && Whole(s) && Enabled(s, step) && WentThrough(step)
    ensures Whole(Next(s, step))
  {
    match step
    case Register(digest, _, _) => RegisterIsWhole(s, digest);
    case Enqueue(c) => EnqueueIsWhole(s, c);
    case Take => TakeIsWhole(s, Working(s.queue[0], s.documents[s.queue[0]], Taken));
    case Lose => TakeIsWhole(s, Idle);
    case Work(act, put) => WorkIsWhole(s, act, put);
    case Settle(c) => SettledIsWhole(s, c);
  }

  /** When no submission is cut short, every registered command is queued exactly once and nothing is left behind. */
  lemma {:induction false} AnsweredRunIsWhole(s: Ledger, steps: seq<Step>)
    requires Inv(s) && Whole(s) && Legal(s, steps)
    requires forall i :: 0 <= i < |steps| ==> WentThrough(steps[i])
    ensures Whole(Run(s, steps))
    decreases |steps|
  {
    if steps != [] {
      StepKeeps(s, steps[0]);
      StepIsWhole(s, steps[0]);
      AnsweredRunIsWhole(Next(s, steps[0]), steps[1..]);
    }
  }

  // ---------------------------------------------------------------- documents only move forward

  /** A document only moves forward: stages are added, a terminal document stays terminal, a failed one failed. */
  ghost predicate Forward(before: Document, after: Document)
  {
    && before.stages <= after.stages
    && (before.terminal ==> after.terminal)
    && (before.status == FAILED_TERMINAL ==> after.status == FAILED_TERMINAL)
  }

  ghost predicate Advances(before: map<Command, Document>, after: map<Command, Document>)
  {
    forall c :: c in before ==> c in after && Forward(before[c], after[c])
  }

  lemma OneAdvances(documents: map<Command, Document>, c: Command, document: Document)
    requires c in documents ==> Forward(documents[c], document)
    ensures Advances(documents, documents[c := document])
  {
  }

  lemma WriteAdvances(s: Ledger, state: Document, phase: Phase, put: Put)
    requires s.worker.Working? && s.worker.command in s.documents
    requires Forward(s.documents[s.worker.command], state)
    ensures Advances(s.documents, Written(s, state, phase, put).documents)
  {
    OneAdvances(s.documents, s.worker.command, state);
  }

  lemma WorkAdvances(s: Ledger, act: Act, put: Put)
    requires Inv(s) && s.worker.Working? && CanDo(s.worker, act)
    ensures Advances(s.documents, Did(s, act, put).documents)
  {
    var state, phase := s.worker.state, s.worker.phase;
    assert Sound(s.worker.command, s.documents[s.worker.command]);
    match act
    case Begin => WriteAdvances(s, state.(status := RUNNING), Running, put);
    case Plan(kind) => WriteAdvances(s, state.(kind := Some(kind)), Planned(kind), put);
    case Note => WriteAdvances(s, state, phase, put);
    case Record =>
      var after := Recorded(state, phase.kind);
      WriteAdvances(s, after, if after.terminal then Closing else phase, put);
    case Duplicate => WriteAdvances(s, Found(state), Closing, put);
    case PutHead =>
    case Raise(_) =>
    case Report => WriteAdvances(s, Failed(state, phase.reason), phase, put);
  }

  lemma StandingAdvances(documents: map<Command, Document>)
    ensures Advances(documents, documents)
  {
  }

  lemma RegisterAdvances(s: Ledger, digest: string, document: Put, head: Put)
    requires Inv(s)
    ensures Advances(s.documents, Registered(s, digest, document, head).documents)
  {
    if NextAttempt(s, digest).Some? {
      var c := NextAttempt(s, digest).value;
      FreshAttempt(s, digest);
      OneAdvances(s.documents, c, Queued(c.attempt));
    }
  }

  lemma SettledAdvances(s: Ledger, c: Command)
    requires Terminal(s, c)
    ensures Advances(s.documents, Settled(s, c).documents)
  {
    if c in s.documents {
      OneAdvances(s.documents, c, Failed(s.documents[c], "STALE_PROPOSAL_BASE"));
    }
  }

  lemma StepAdvances(s: Ledger, step: Step)
    requires Inv(s) && Enabled(s, step) && (step.Settle? ==> Terminal(s, step.command))
    ensures Advances(s.documents, Next(s, step).documents)
  {
    match step
    case Register(digest, document, head) => RegisterAdvances(s, digest, document, head);
    case Work(act, put) => WorkAdvances(s, act, put);
    case Settle(c) => SettledAdvances(s, c);
    case _ => StandingAdvances(s.documents);
  }

  lemma AdvancesCompose(a: map<Command, Document>, b: map<Command, Document>, c: map<Command, Document>)
    requires Advances(a, b) && Advances(b, c)
    ensures Advances(a, c)
  {
    forall k | k in a ensures k in c && Forward(a[k], c[k]) {
      assert Forward(a[k], b[k]) && Forward(b[k], c[k]);
    }
  }

  lemma {:induction false} RunAdvances(s: Ledger, steps: seq<Step>)
    requires Inv(s) && Legal(s, steps)
    ensures Advances(s.documents, Run(s, steps).documents)
    decreases |steps|
  {
    if steps == [] {
      StandingAdvances(s.documents);
    } else {
      var next := Next(s, steps[0]);
      StepAdvances(s, steps[0]);
      StepKeeps(s, steps[0]);
      RunAdvances(next, steps[1..]);
      AdvancesCompose(s.documents, next.documents, Run(s, steps).documents);
    }
  }

  // ---------------------------------------------------------------- submissions

  /** A submission answered by a live command changes nothing, so submitting twice is submitting once. */
  lemma SubmittingTwiceIsOnce(s: Ledger, digest: string, document: Put, head: Put)
    requires Inv(s)
    ensures var once := Registered(s, digest, Stored, Stored);
            && Registered(once, digest, document, head) == once
            && digest in once.heads && Live(once, once.heads[digest])
  {
    if NextAttempt(s, digest).Some? {
      FreshAttempt(s, digest);
    }
  }

  /** A new attempt is made exactly when the identity is new or its newest command has failed. */
  lemma FreshAttemptIff(s: Ledger, digest: string)
    requires Inv(s)
    ensures NextAttempt(s, digest).Some?
            <==> digest !in s.heads || !Live(s, s.heads[digest])
    ensures NextAttempt(s, digest).Some? ==>
              NextAttempt(s, digest).value == Command(digest, Attempts(s.heads, digest) + 1)
              && Fresh(s, NextAttempt(s, digest).value)
  {
    if NextAttempt(s, digest).Some? {
      FreshAttempt(s, digest);
    } else {
      assert Sound(s.heads[digest], s.documents[s.heads[digest]]);
    }
  }

  lemma HeadIsOlder(s: Ledger, digest: string)
    requires Inv(s) && digest in s.heads
    ensures s.heads[digest] in s.documents && s.heads[digest] != Command(digest, Attempts(s.heads, digest) + 1)
  {
    assert s.heads[digest] == Command(digest, Attempts(s.heads, digest));
    assert s.heads[digest] in s.documents.Keys;
  }

  /** A document left behind is written again, unchanged. */
  lemma LeftBehindIsReused(s: Ledger, digest: string, c: Command)
    requires NextAttempt(s, digest) == Some(c)
    requires digest in s.heads ==> s.heads[digest] in s.documents && s.heads[digest] != c
    ensures NextAttempt(Documented(s, c), digest) == Some(c) && Documented(Documented(s, c), c) == Documented(s, c)
  {
  }

  lemma NamedIsAnswered(s: Ledger, c: Command)
    requires Fresh(s, c)
    ensures var failed := Started(s, c, Stored, Unanswered);
            && NextAttempt(failed, c.digest).None? && failed != Started(s, c, Stored, Stored)
  {
    assert c in Started(s, c, Stored, Stored).leaving && c !in s.leaving;
  }

  /**
   * A submission that failed and is sent again leaves the ledger of one that went through at once, if and
   * only if its head write did not land: the identity is then as open as before, and else it is answered
   * by a command whose job was never queued.
   */
  lemma FailedSubmissionIff(s: Ledger, digest: string, document: Put, head: Put)
    requires Inv(s) && NextAttempt(s, digest).Some? && (document != Stored || head != Stored)
    ensures Registered(Registered(s, digest, document, head), digest, Stored, Stored)
            == Registered(s, digest, Stored, Stored)
            <==> !(document == Stored && head == Unanswered)
  {
    var c := NextAttempt(s, digest).value;
    FreshAttempt(s, digest);
    if document == Stored && head == Unanswered {
      NamedIsAnswered(s, c);
    } else if document != Refused {
      if digest in s.heads {
        HeadIsOlder(s, digest);
      }
      LeftBehindIsReused(s, digest, c);
    }
  }

  /** The head names a queued command whose job is nowhere. */
  predicate Stranded(s: Ledger, c: Command)
  {
    && NamedByHead(s, c) && c in s.documents && s.documents[c] == Queued(c.attempt)
    && Places(s.taken, s.queue, s.leaving, c) == 0
  }

  lemma StrandedAnswers(s: Ledger, digest: string, document: Put, head: Put, c: Command)
    requires Inv(s) && Stranded(s, c)
    ensures Stranded(Registered(s, digest, document, head), c)
  {
    if NextAttempt(s, digest).Some? {
      FreshAttempt(s, digest);
    }
  }

  lemma StrandedEnqueue(s: Ledger, d: Command, c: Command)
    requires Stranded(s, c) && d in s.leaving
    ensures Stranded(Next(s, Enqueue(d)), c)
  {
    assert multiset(s.queue + [d]) == multiset(s.queue) + multiset{d};
  }

  lemma StrandedWork(s: Ledger, act: Act, put: Put, c: Command)
    requires Inv(s) && Stranded(s, c) && s.worker.Working? && CanDo(s.worker, act)
    ensures Stranded(Did(s, act, put), c)
  {
    WorkKeepsCommands(s, act, put);
    assert multiset(s.taken)[s.worker.command] >= 1;
    assert s.worker.command != c;
    WorkTouchesOne(s, act, put, c);
  }

  lemma WorkTouchesOne(s: Ledger, act: Act, put: Put, c: Command)
    requires s.worker.Working? && CanDo(s.worker, act) && s.worker.command != c && c in s.documents
    ensures c in Did(s, act, put).documents && Did(s, act, put).documents[c] == s.documents[c]
  {
  }

  lemma StrandedStep(s: Ledger, step: Step, c: Command)
    requires Inv(s) && Stranded(s, c) && Enabled(s, step) && (step.Settle? ==> Terminal(s, step.command))
    ensures Stranded(Next(s, step), c)
  {
    match step
    case Register(digest, document, head) => StrandedAnswers(s, digest, document, head, c);
    case Enqueue(d) => StrandedEnqueue(s, d, c);
    case Take => StrandedTake(s, c, Working(s.queue[0], s.documents[s.queue[0]], Taken));
    case Lose => StrandedTake(s, c, Idle);
    case Work(act, put) => StrandedWork(s, act, put, c);
    case Settle(d) =>
  }

  lemma StrandedTake(s: Ledger, c: Command, worker: Worker)
    requires Stranded(s, c) && s.queue != []
    ensures Stranded(TakenOff(s, worker), c)
  {
    HeadOfQueue(s.queue, s.queue[0]);
    assert multiset(s.taken + [s.queue[0]]) == multiset(s.taken) + multiset{s.queue[0]};
  }

  /** A stranded command answers every later submission of its identity and is never run, in every run. */
  lemma {:induction false} StrandedStays(s: Ledger, steps: seq<Step>, c: Command)
    requires Inv(s) && Stranded(s, c) && Legal(s, steps)
    ensures Stranded(Run(s, steps), c) && NextAttempt(Run(s, steps), c.digest).None?
    decreases |steps|
  {
    if steps != [] {
      StepKeeps(s, steps[0]);
      StrandedStep(s, steps[0], c);
      StrandedStays(Next(s, steps[0]), steps[1..], c);
    }
  }

  lemma StartStrandsIff(s: Ledger, c: Command, document: Put, head: Put)
    requires Fresh(s, c) && !NamedByHead(s, c)
    ensures Stranded(Started(s, c, document, head), c) <==> document == Stored && head == Unanswered
  {
  }

  /** A submission strands its command exactly when the head write lands and is not answered. */
  lemma StrandedIff(s: Ledger, digest: string, document: Put, head: Put)
    requires Inv(s) && NextAttempt(s, digest).Some?
    ensures Stranded(Registered(s, digest, document, head), NextAttempt(s, digest).value)
            <==> document == Stored && head == Unanswered
  {
    FreshAttempt(s, digest);
    StartStrandsIff(s, NextAttempt(s, digest).value, document, head);
  }

  /** Different attempts of different identities have different command identifiers. */
  lemma CommandIdsAreDistinct(c: Command, d: Command)
    requires |c.digest| == |d.digest| && c.attempt >= 1 && d.attempt >= 1
    requires CommandId(c) == CommandId(d)
    ensures c == d
  {
    var n := 7 + |c.digest|;
    var x, y := CommandId(c), CommandId(d);
    assert |"cmd-ui-"| == 7 && |"-r"| == 2;
    assert c.digest == x[7..n] && d.digest == y[7..n];
    if c.attempt > 1 {
      assert x[n..] == "-r" + Decimal(c.attempt);
    } else {
      assert x[n..] == "";
    }
    if d.attempt > 1 {
      assert y[n..] == "-r" + Decimal(d.attempt);
      assert y[n..][2..] == Decimal(d.attempt);
    }
    if c.attempt > 1 && d.attempt > 1 {
      assert x[n..][2..] == Decimal(c.attempt);
      DecimalInjective(c.attempt, d.attempt);
    }
  }

  // ---------------------------------------------------------------- why settlement must wait

  lemma {:induction false} RunsCompose(s: Ledger, first: seq<Step>, second: seq<Step>)
    requires Legal(s, first) && Legal(Run(s, first), second)
    ensures Legal(s, first + second) && Run(s, first + second) == Run(Run(s, first), second)
    decreases |first|
  {
    if first == [] {
      assert first + second == second;
    } else {
      assert (first + second)[1..] == first[1..] + second;
      RunsCompose(Next(s, first[0]), first[1..], second);
    }
  }

  lemma OneStep(s: Ledger, step: Step)
    requires Enabled(s, step) && !step.Settle?
    ensures Legal(s, [step]) && Run(s, [step]) == Next(s, step)
  {
    assert [step][1..] == [];
  }

  lemma TwoSteps(s: Ledger, first: Step, second: Step) returns (steps: seq<Step>)
    requires Enabled(s, first) && Enabled(Next(s, first), second) && !first.Settle? && !second.Settle?
    ensures steps == [first, second] && Legal(s, steps) && Run(s, steps) == Next(Next(s, first), second)
  {
    OneStep(s, first);
    OneStep(Next(s, first), second);
    RunsCompose(s, [first], [second]);
    steps := [first] + [second];
    assert steps == [first, second];
  }

  /** Whatever the worker holds, it can drop without a trace: its writes are refused. */
  lemma Drops(s: Ledger) returns (steps: seq<Step>)
    ensures Legal(s, steps) && Run(s, steps) == s.(worker := Idle)
  {
    if s.worker.Idle? {
      steps := [];
    } else if s.worker.phase.Failing? {
      OneStep(s, Work(Report, Refused));
      steps := [Work(Report, Refused)];
    } else {
      var fails := if s.worker.phase == Taken then Work(Begin, Refused) else Work(Raise("PIPELINE_FAILED"), Stored);
      steps := TwoSteps(s, fails, Work(Report, Refused));
    }
  }

  /** An idle worker can lose the jobs in front of one. */
  lemma {:induction false} Loses(s: Ledger, k: nat) returns (steps: seq<Step>)
    requires s.worker.Idle? && k <= |s.queue|
    ensures Legal(s, steps) && Run(s, steps) == s.(queue := s.queue[k..], taken := s.taken + s.queue[..k])
    decreases k
  {
    if k == 0 {
      assert s.queue[0..] == s.queue && s.taken + s.queue[..0] == s.taken;
      steps := [];
    } else {
      var lost := Next(s, Lose);
      OneStep(s, Lose);
      var rest := Loses(lost, k - 1);
      RunsCompose(s, [Lose], rest);
      steps := [Lose] + rest;
      assert s.queue[1..][k - 1..] == s.queue[k..];
      assert s.taken + [s.queue[0]] + s.queue[1..][..k - 1] == s.taken + s.queue[..k];
    }
  }

  /** What the worker writes next, from its cached document. */
  function NextWrite(phase: Phase): Act
  {
    if phase == Taken then Begin else Note
  }

  /** The worker has `c` in hand, `c` has failed in the ledger, and its identity is open for a successor. */
  ghost predicate Doomed(s: Ledger, c: Command)
  {
    && c in s.documents && s.documents[c].status == FAILED_TERMINAL && NamedByHead(s, c)
    && s.documents[c].attempt == c.attempt
  }

  /** The cached copy is written over the settled document, beside the successor registered meanwhile. */
  lemma CachedCopyRevives(s: Ledger, c: Command) returns (steps: seq<Step>)
    requires Doomed(s, c) && s.worker.Working? && s.worker.command == c
    requires CanDo(s.worker, NextWrite(s.worker.phase))
    requires s.worker.phase == Taken || s.worker.state.status == RUNNING
    ensures Legal(s, steps) && !AtMostOneLive(Run(s, steps))
  {
    var successor := Command(c.digest, c.attempt + 1);
    assert NextAttempt(s, c.digest) == Some(successor);
    var register, write := Register(c.digest, Stored, Stored), Work(NextWrite(s.worker.phase), Stored);
    var s1 := Next(s, register);
    assert Live(s1, successor) && s1.worker == s.worker;
    steps := TwoSteps(s, register, write);
    var s2 := Next(s1, write);
    assert Live(s2, successor) && Live(s2, c);
  }

  /** A settled command whose job still waits is taken, marked running, and lives beside its successor. */
  lemma WaitingRevives(s: Ledger, c: Command) returns (steps: seq<Step>)
    requires Doomed(s, c) && c in s.queue
    ensures Legal(s, steps) && !AtMostOneLive(Run(s, steps))
  {
    var k :| 0 <= k < |s.queue| && s.queue[k] == c;
    var drops := Drops(s);
    var s1 := Run(s, drops);
    var loses := Loses(s1, k);
    var s2 := Run(s1, loses);
    RunsCompose(s, drops, loses);
    assert s2.queue[0] == c;
    OneStep(s2, Take);
    var s3 := Next(s2, Take);
    RunsCompose(s, drops + loses, [Take]);
    var revives := CachedCopyRevives(s3, c);
    RunsCompose(s, drops + loses + [Take], revives);
    steps := drops + loses + [Take] + revives;
  }

  lemma LeavingRevives(s: Ledger, c: Command) returns (steps: seq<Step>)
    requires Doomed(s, c) && c in s.leaving
    ensures Legal(s, steps) && !AtMostOneLive(Run(s, steps))
  {
    OneStep(s, Enqueue(c));
    var s1 := Next(s, Enqueue(c));
    assert s1.queue[|s.queue|] == c;
    var rest := WaitingRevives(s1, c);
    RunsCompose(s, [Enqueue(c)], rest);
    steps := [Enqueue(c)] + rest;
  }

  lemma SettledTooEarly(s: Ledger, c: Command) returns (steps: seq<Step>)
    requires Inv(s) && Issued(s, c) && InHand(s, c) && !s.documents[c].terminal
    ensures Legal(Settled(s, c), steps) && !AtMostOneLive(Run(Settled(s, c), steps))
  {
    var after := Settled(s, c);
    InvMeansOneLive(s);
    assert Sound(c, s.documents[c]) && Live(s, c);
    assert Doomed(after, c);
    if c in s.leaving {
      steps := LeavingRevives(after, c);
    } else if c in s.queue {
      steps := WaitingRevives(after, c);
    } else {
      steps := CachedCopyRevives(after, c);
    }
  }

  /**
   * Settling an issued command is safe in every continuation if and only if its document has ended or
   * nobody has its job in hand: otherwise the worker revives it beside its own successor.
   */
  lemma SettlementIsSafeIff(s: Ledger, c: Command)
    requires Inv(s) && Issued(s, c)
    ensures (forall steps :: Legal(Settled(s, c), steps) ==> AtMostOneLive(Run(Settled(s, c), steps)))
            <==> s.documents[c].terminal || !InHand(s, c)
  {
    if s.documents[c].terminal || !InHand(s, c) {
      SettleKeeps(s, c);
      forall steps | Legal(Settled(s, c), steps) ensures AtMostOneLive(Run(Settled(s, c), steps)) {
        RunKeeps(Settled(s, c), steps);
        InvMeansOneLive(Run(Settled(s, c), steps));
      }
    } else {
      var steps := SettledTooEarly(s, c);
    }
  }

  /** A run from nothing in which the first attempt of an identity is running. */
  function UntilRunning(digest: string): seq<Step>
  {
    [Register(digest, Stored, Stored), Enqueue(Command(digest, 1)), Take, Work(Begin, Stored)]
  }

  /** What may follow an early settlement: a new submission, and the running worker's next note. */
  function AfterSettlement(digest: string): seq<Step>
  {
    [Register(digest, Stored, Stored), Work(Note, Stored)]
  }

  lemma FourSteps(s: Ledger, a: Step, b: Step, c: Step, d: Step)
    requires Enabled(s, a) && Enabled(Next(s, a), b) && Enabled(Next(Next(s, a), b), c)
    requires Enabled(Next(Next(Next(s, a), b), c), d)
    requires !a.Settle? && !b.Settle? && !c.Settle? && !d.Settle?
    ensures Legal(s, [a, b, c, d]) && Run(s, [a, b, c, d]) == Next(Next(Next(Next(s, a), b), c), d)
  {
    var s2 := Next(Next(s, a), b);
    var first := TwoSteps(s, a, b);
    var second := TwoSteps(s2, c, d);
    RunsCompose(s, first, second);
    assert first + second == [a, b, c, d];
  }

  /** The run of an early settlement, written out: both attempts are alive at its end. */
  lemma EarlySettlementSpoils(digest: string)
    ensures Legal(EMPTY, UntilRunning(digest))
    ensures var c, s := Command(digest, 1), Run(EMPTY, UntilRunning(digest));
            && Issued(s, c) && !s.documents[c].terminal
            && Legal(Settled(s, c), AfterSettlement(digest))
            && var last := Run(Settled(s, c), AfterSettlement(digest));
               Live(last, c) && Live(last, Command(digest, 2))
  {
    var c, d := Command(digest, 1), Command(digest, 2);
    var s1 := Next(EMPTY, Register(digest, Stored, Stored));
    assert s1 == Ledger(map[digest := c], map[c := Queued(1)], {c}, [], [], Idle);
    var s2 := Next(s1, Enqueue(c));
    assert s2 == Ledger(map[digest := c], map[c := Queued(1)], {}, [c], [], Idle);
    var s3 := Next(s2, Take);
    assert s3 == Ledger(map[digest := c], map[c := Queued(1)], {}, [], [c], Working(c, Queued(1), Taken));
    FourSteps(EMPTY, Register(digest, Stored, Stored), Enqueue(c), Take, Work(Begin, Stored));
    var s := Next(s3, Work(Begin, Stored));
    var t1 := Next(Settled(s, c), Register(digest, Stored, Stored));
    assert Live(t1, d);
    var t2 := Next(t1, Work(Note, Stored));
    assert AfterSettlement(digest)[1..] == [Work(Note, Stored)];
    OneStep(t1, Work(Note, Stored));
    assert Live(t2, c) && Live(t2, d);
  }

  /** A settled command no longer answers submissions: the next one makes a new attempt on the moved graph. */
  lemma SettledIsResubmittable(s: Ledger, c: Command)
    requires Inv(s) && c in s.documents && s.documents[c].terminal
    ensures var next := Settled(s, c);
            next.documents[c].status == FAILED_TERMINAL
            && next.documents[c].reason == Some("STALE_PROPOSAL_BASE")
            && (NamedByHead(s, c) ==>
                  NextAttempt(next, c.digest) == Some(Command(c.digest, c.attempt + 1)))
  {
    assert c in s.documents.Keys;
    assert Sound(c, s.documents[c]);
  }
}
