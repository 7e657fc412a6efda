/** The storage writer as its callers see it: a bounded queue of copied jobs, one
    commit at a time in submission order, and receipts that pin the exact roots
    before and after. */
module Writer {
  import opened Wrappers
  import opened Replica

  /** Sizes the allocator charges. They depend on the build, so the model keeps
      them as parameters; none is zero. */
  datatype SizeTable = SizeTable(job: nat, generation: nat, delivery: nat, header: nat)
  type Sizes = z: SizeTable | z.job > 0 && z.generation > 0 && z.delivery > 0 && z.header > 0
    witness SizeTable(1, 1, 1, 1)

  datatype Head = Head(owner: nat, round: nat, stream: Stream, seqno: nat)

  /** What one INF line promises about a block. */
  datatype Spec = Spec(head: Head, block: Block, count: nat, digest: Digest)

  datatype Work =
    | Mutate(stream: Stream, seqno: nat, local: bool, op: Op)
    | Bind(stream: Stream)
    | StageBegin(spec: Spec)
    | StagePut(block: Block, key: Key, value: Value)
    | StageEnd(block: Block)
    | StageReuse(spec: Spec)
    | StagePromote
    | StageAbort

  predicate Foreground(w: Work) {
    w.Mutate? || w.Bind?
  }

  datatype Result = Ok | Staged | Busy | Limit | Rejected | Error | Corrupt

  datatype Job = Job(id: nat, owner: nat, revision: nat, work: Work, charge: nat, cancelled: bool)

  /** before and after mean something only when result is Ok. */
  datatype Receipt = Receipt(job: Job, result: Result, before: Root, after: Root)

  /** Private staging of one import round. */
  datatype Stage = Stage(
    head: Head,
    specs: map<Block, Spec>,
    rows: map<Block, seq<(Key, Value)>>,
    sealed: set<Block>,
    ready: map<Block, Content>,
    failed: bool)

  /** aborted is no field of the program: it records that an abort() has been
      reached, at which the program would have stopped. */
  datatype Engine = Engine(
    sizes: Sizes,
    failed: bool,
    revision: nat,
    nextJob: nat,
    queueBytes: nat,
    deliveryBytes: nat,
    detached: Option<Job>,
    pending: seq<Job>,
    completed: seq<Receipt>,
    root: Root,
    stages: map<nat, Stage>,
    aborted: bool)

  // ----- Queue capacity -----

  /** Zero when a job of this length can never be queued. */
  function JobCharge(z: Sizes, length: nat): (charge: nat)
    ensures charge <= QUEUE_LIMIT
    ensures charge > 0 <==> z.job + length + z.header + 2 * (z.generation + z.header) <= QUEUE_LIMIT
  {
    var charge := z.job + length + z.header + 2 * (z.generation + z.header);
    if charge <= QUEUE_LIMIT then charge else 0
  }

  function Envelope(z: Sizes, length: nat): (charge: nat)
    ensures charge > length
  {
    z.delivery + length + z.header
  }

  /** Reserve queue space for a copied delivery and the job it will become. */
  function Reserve(e: Engine, revision: nat, charge: nat): (Result, Engine) {
    if charge == 0 || charge > QUEUE_LIMIT then (Error, e)
    else if e.failed || e.revision != revision then (Busy, e)
    else if e.queueBytes > QUEUE_LIMIT || charge > QUEUE_LIMIT - e.queueBytes then (Limit, e)
    else (Ok, e.(deliveryBytes := e.deliveryBytes + charge, queueBytes := e.queueBytes + charge))
  }

  function Release(e: Engine, charge: nat): (Result, Engine) {
    if charge == 0 || charge > e.deliveryBytes || charge > e.queueBytes then (Error, e)
    else (Ok, e.(deliveryBytes := e.deliveryBytes - charge, queueBytes := e.queueBytes - charge))
  }

  datatype Admission = Admission(result: Result, engine: Engine, id: nat)

  /** The caller of a release stops the program when it is refused. */
  function Surrender(e: Engine, charge: nat): Engine {
    var released := Release(e, charge);
    if released.0.Ok? then released.1 else e.(aborted := true)
  }

  /** So does the caller that frees a job. */
  function Free(e: Engine, charge: nat): Engine {
    if charge == 0 || e.queueBytes < charge then e.(detached := None, aborted := true)
    else e.(detached := None, queueBytes := e.queueBytes - charge)
  }

  /** Queue a job. A credit is a charge the delivery queue already holds for it. */
  function Submit(e: Engine, work: Work, owner: nat, revision: nat, length: nat, credit: nat, memory: bool): Admission {
    var charge := JobCharge(e.sizes, length);
    if charge == 0 || (credit != 0 && credit != charge) then Admission(Limit, e, 0)
    else if e.failed || revision != e.revision then Admission(Busy, e, 0)
    else if e.nextJob >= WORD_MAX || e.queueBytes > QUEUE_LIMIT || credit > e.deliveryBytes ||
            charge - credit > QUEUE_LIMIT - e.queueBytes || !memory then Admission(Limit, e, 0)
    else
      Admission(Ok, e.(
        pending := e.pending + [Job(e.nextJob, owner, revision, work, charge, false)],
        nextJob := e.nextJob + 1,
        deliveryBytes := e.deliveryBytes - credit,
        queueBytes := e.queueBytes + (charge - credit)), e.nextJob)
  }

  /** Withdraw every authorization granted so far. */
  function Authority(e: Engine): (Result, Engine) {
    if e.revision >= WORD_MAX then (Limit, e.(failed := true))
    else (Ok, e.(revision := e.revision + 1))
  }

  function CancelJobs(jobs: seq<Job>, owners: set<nat>): (r: seq<Job>)
    ensures |r| == |jobs|
    ensures forall i | 0 <= i < |r| :: r[i] == jobs[i].(cancelled := jobs[i].cancelled || jobs[i].owner in owners)
  {
    if jobs == [] then []
    else [jobs[0].(cancelled := jobs[0].cancelled || jobs[0].owner in owners)] + CancelJobs(jobs[1..], owners)
  }

  function Cancel(e: Engine, owners: set<nat>): Engine {
    e.(pending := CancelJobs(e.pending, owners))
  }

  // ----- Preparing and committing -----

  /** What the storage layer does with a job it may commit: Commit follows the
      contract, Fail is any I/O, validation or cancellation outcome. */
  datatype Fate = Commit | Fail(result: Result)

  type Failure = r: Result | !r.Ok? && !r.Staged? witness Busy

  datatype Prepared = Prepared(result: Result, root: Root, stages: map<nat, Stage>)

  function RowContent(rows: seq<(Key, Value)>): Content {
    if rows == [] then map[] else RowContent(rows[..|rows| - 1])[rows[|rows| - 1].0 := rows[|rows| - 1].1]
  }

  predicate Distinct(rows: seq<(Key, Value)>) {
    forall i, j | 0 <= i < j < |rows| :: rows[i].0 != rows[j].0
  }

  function Fresh(head: Head): Stage {
    Stage(head, map[], map[], {}, map[], false)
  }

  function Admit(stages: map<nat, Stage>, owner: nat, spec: Spec): Option<Stage> {
    if spec.head.owner != owner then None
    else if owner !in stages then Some(Fresh(spec.head))
    else if stages[owner].failed || stages[owner].head != spec.head || spec.block in stages[owner].specs then None
    else Some(stages[owner])
  }

  function Fault(stages: map<nat, Stage>, owner: nat): map<nat, Stage> {
    if owner in stages then stages[owner := stages[owner].(failed := true)] else stages
  }

  function Reject(base: Root, stages: map<nat, Stage>, job: Job): Prepared {
    Prepared(Rejected, base, Fault(stages, job.owner))
  }

  /** END seals the rows it received and accepts them only as the promised block. */
  function PrepareEnd(base: Root, stages: map<nat, Stage>, job: Job, block: Block): Prepared {
    if job.owner !in stages || stages[job.owner].failed || block !in stages[job.owner].specs then Reject(base, stages, job)
    else
      var st := stages[job.owner];
      if block in st.sealed || block !in st.rows || |st.rows[block]| != st.specs[block].count then Reject(base, stages, job)
      else
        var content := RowContent(st.rows[block]);
        var sealed := st.(sealed := st.sealed + {block});
        if !Distinct(st.rows[block]) || st.specs[block].digest != Of(content) || |content| != st.specs[block].count
        then Reject(base, stages[job.owner := sealed], job)
        else Prepared(Ok, base, stages[job.owner := sealed.(ready := st.ready[block := content])])
  }

  function Prepare(base: Root, stages: map<nat, Stage>, job: Job): Prepared {
    match job.work
    case Mutate(stream, seqno, local, op) =>
      if stream != base.stream || base.seqno >= WORD_MAX || (local && seqno != 0) || (!local && seqno != base.seqno + 1)
      then Prepared(Rejected, base, stages)
      else if op.Expire? && !local then Prepared(Rejected, base, stages)
      else if op.Expire? && !Due(base.db, op.key, op.expected) then Prepared(Staged, base, stages)
      else Prepared(Ok, Root(Apply(base.db, op), stream, base.seqno + 1), stages)
    case Bind(stream) => Prepared(Ok, Root(base.db, stream, 0), stages)
    case StageBegin(spec) =>
      var st := Admit(stages, job.owner, spec);
      if st.None? then Reject(base, stages, job)
      else Prepared(Staged, base, stages[job.owner := st.value.(
        specs := st.value.specs[spec.block := spec], rows := st.value.rows[spec.block := []])])
    case StageReuse(spec) =>
      var st := Admit(stages, job.owner, spec);
      if st.None? then Reject(base, stages, job)
      else
        var admitted := st.value.(specs := st.value.specs[spec.block := spec]);
        if |base.db[spec.block]| != spec.count || spec.digest != Of(base.db[spec.block])
        then Reject(base, stages[job.owner := admitted], job)
        else Prepared(Ok, base, stages[job.owner := admitted.(ready := admitted.ready[spec.block := base.db[spec.block]])])
    case StagePut(block, key, value) =>
      if job.owner !in stages || stages[job.owner].failed then Reject(base, stages, job)
      else
        var st := stages[job.owner];
        if block !in st.specs || block in st.sealed || block !in st.rows || |st.rows[block]| >= st.specs[block].count
        then Reject(base, stages, job)
        else Prepared(Staged, base, stages[job.owner := st.(rows := st.rows[block := st.rows[block] + [(key, value)]])])
    case StageEnd(block) => PrepareEnd(base, stages, job, block)
    case StagePromote =>
      if job.owner !in stages || stages[job.owner].failed || stages[job.owner].ready.Keys != ALL_BLOCKS
      then Reject(base, stages, job)
      else
        var st := stages[job.owner];
        Prepared(Ok, Root([st.ready[0], st.ready[1], st.ready[2], st.ready[3], st.ready[4], st.ready[5]],
                          st.head.stream, st.head.seqno), stages - {job.owner})
    case StageAbort =>
      Prepared(if job.owner in stages && stages[job.owner].ready != map[] then Ok else Staged, base, stages - {job.owner})
  }

  /** Only work that is still authorized at the durability barrier commits. */
  predicate Live(e: Engine, job: Job) {
    !e.failed && !job.cancelled && job.revision == e.revision
  }

  function Outcome(e: Engine, job: Job, fate: Fate): Prepared {
    var refused := if Foreground(job.work) then e.stages else Fault(e.stages, job.owner);
    if !Live(e, job) then Prepared(Busy, e.root, refused)
    else if fate.Fail? then
      Prepared(if fate.result.Ok? || fate.result.Staged? then Busy else fate.result, e.root, refused)
    else Prepare(e.root, e.stages, job)
  }

  /** Process the oldest queued job. */
  function Step(e: Engine, fate: Fate): Engine {
    if e.pending == [] then e
    else
      var job := e.pending[0];
      var p := Outcome(e, job, fate);
      e.(pending := e.pending[1..],
         completed := e.completed + [Receipt(job, p.result, e.root, p.root)],
         root := p.root,
         stages := p.stages,
         failed := e.failed || p.result.Error? || p.result.Corrupt?)
  }
}
